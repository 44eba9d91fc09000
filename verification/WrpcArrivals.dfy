/** What becomes of the notifications that arrive, told from the turns: the
    frames that replays read and the frames that arrive on a live stream. */
module WrpcArrivals {
  import opened Common
  import opened WrpcTypes
  import opened WrpcDriver
  import opened WrpcNotifications
  import opened WrpcCalls
  import opened WrpcSubscriptions

  predicate IsNotification(frame: Frame) {
    frame.decoded.Ok? && frame.decoded.value.id.None? && frame.decoded.value.kind.Notification?
  }

  /** Nobody listens and the queue is at its limit. */
  predicate Full(d: Driver, listening: set<WaiterId>) {
    |d.notifications| >= MAX_QUEUED_NOTIFICATIONS && forall i :: 0 <= i < |d.waiters| ==> d.waiters[i] !in listening
  }

  /** A notification that was read off the socket, and whether it overflowed. */
  datatype Read = Read(frame: Frame, refused: bool)

  function Taken(arrivals: seq<Read>): seq<Frame> {
    if arrivals == [] then [] else (if arrivals[0].refused then [] else [arrivals[0].frame]) + Taken(arrivals[1..])
  }

  lemma {:induction false} TakenConcat(a: seq<Read>, b: seq<Read>)
    ensures Taken(a + b) == Taken(a) + Taken(b)
  {
    if a == [] {
      assert a + b == b;
    } else {
      assert (a + b)[0] == a[0] && (a + b)[1..] == a[1..] + b;
      TakenConcat(a[1..], b);
    }
  }

  lemma TakenFirst(read: Read, later: seq<Read>)
    ensures Taken([read] + later) == (if read.refused then [] else [read.frame]) + Taken(later)
    ensures Taken([read]) == if read.refused then [] else [read.frame]
  {
    assert ([read] + later)[1..] == later && [read][1..] == [];
    assert Taken([]) == [] && [read.frame] + [] == [read.frame];
  }

  lemma Joined(a: seq<Frame>, b: seq<Frame>, c: seq<Frame>)
    ensures a + b + c == a + (b + c)
    ensures a + [] == a
  {
  }

  // ----- The notifications of a run -----

  /** While a response is awaited, notifications are read until something else
      comes or one overflows. */
  function ReadWhileAwaiting(d: Driver, frames: seq<Frame>, listening: set<WaiterId>): seq<Read>
    decreases frames
  {
    if frames == [] || !IsNotification(frames[0]) then []
    else if Full(d, listening) then [Read(frames[0], true)]
    else [Read(frames[0], false)] + ReadWhileAwaiting(QueueOrDeliver(d, frames[0], listening).0, frames[1..], listening)
  }

  /** A replay reads once its request is sent, and the next one follows on an
      acknowledgement. */
  function ReadWhileReplaying(d: Driver, stream: Stream, payloads: seq<seq<byte>>, replays: seq<Replay>, listening: set<WaiterId>): seq<Read>
    decreases payloads
  {
    if payloads == [] || replays == [] then []
    else
      var (next, made) := ReplayOne(d, stream, payloads[0], replays[0], listening);
      (if replays[0].encoded && replays[0].sent then ReadWhileAwaiting(d, replays[0].frames, listening) else [])
      + match made
        case Err(_) => []
        case Ok(grown) => ReadWhileReplaying(next, grown, payloads[1..], replays[1..], listening)
  }

  function ReadWhileConnecting(d: Driver, t: Turn): seq<Read> {
    if t.stop then []
    else
      var dispatched := DispatchQueuedNotifications(d.(nextRequest := d.nextRequest + t.idsUsedElsewhere), t.listening);
      if ShouldEstablish(dispatched) && t.connected.Ok?
      then ReadWhileReplaying(dispatched, Stream([], 0), dispatched.subscriptions, t.replays, t.listening) else []
  }

  /** The frame that a turn ends with, when a stream is there to bring it. */
  function ReadAtEvent(d: Driver, t: Turn): seq<Read> {
    var at := AtEvent(d, t);
    if at.Some? && at.value.stream.Some? && t.event.Arrived? && IsNotification(t.event.frame)
    then [Read(t.event.frame, Full(at.value, t.listening))] else []
  }

  function TurnReads(d: Driver, t: Turn): seq<Read> {
    ReadWhileConnecting(d, t) + ReadAtEvent(d, t)
  }

  /** Every notification that a run reads, in order. */
  function RunReads(d: Driver, turns: seq<Turn>): seq<Read>
    decreases turns
  {
    if turns == [] then []
    else
      var (next, goesOn) := TurnOnce(d, turns[0]);
      TurnReads(d, turns[0]) + if goesOn then RunReads(next, turns[1..]) else []
  }

  // ----- Where they are -----

  /** Handed out in order, and then those still queued. */
  function Passed(d: Driver): seq<Frame> {
    Frames(d.handed) + d.notifications
  }

  predicate FirstListening(waiters: seq<WaiterId>, listening: set<WaiterId>, i: nat) {
    i < |waiters| && waiters[i] in listening && forall j :: 0 <= j < i ==> waiters[j] !in listening
  }

  /** A frame reaches the first waiter that listens. */
  lemma {:induction false} OfferReaches(d: Driver, frame: Frame, listening: set<WaiterId>)
    ensures var (e, taken) := Offer(d, frame, listening);
            && (taken <==> exists i :: 0 <= i < |d.waiters| && d.waiters[i] in listening)
            && (taken ==> exists i: nat :: FirstListening(d.waiters, listening, i) && e.handed == d.handed + [Handed(frame, d.waiters[i], true)])
    decreases |d.waiters|
  {
    if d.waiters == [] {
    } else if d.waiters[0] in listening {
      assert FirstListening(d.waiters, listening, 0);
    } else {
      var next := d.(waiters := d.waiters[1..], waitersGone := d.waitersGone + [d.waiters[0]]);
      OfferReaches(next, frame, listening);
      var (e, taken) := Offer(next, frame, listening);
      if taken {
        var i: nat :| FirstListening(next.waiters, listening, i) && e.handed == d.handed + [Handed(frame, next.waiters[i], true)];
        assert d.waiters[i + 1] == next.waiters[i];
        assert forall j :: 0 < j < i + 1 ==> d.waiters[j] == next.waiters[j - 1];
        assert FirstListening(d.waiters, listening, i + 1);
      }
      if exists i :: 0 <= i < |d.waiters| && d.waiters[i] in listening {
        var i :| 0 <= i < |d.waiters| && d.waiters[i] in listening;
        assert next.waiters[i - 1] == d.waiters[i];
      }
    }
  }

  /** From `d` to `e` the frame went to the first waiter that listens, or else to
      the end of the queue; only when nobody listens and the queue is full it
      went nowhere. */
  ghost predicate TakenBy(d: Driver, e: Driver, frame: Frame, listening: set<WaiterId>) {
    var someone := exists i :: 0 <= i < |d.waiters| && d.waiters[i] in listening;
    && (someone ==> e.notifications == d.notifications
                    && exists i: nat :: FirstListening(d.waiters, listening, i)
                                        && e.handed == d.handed + [Handed(frame, d.waiters[i], true)])
    && (!someone ==> e.handed == d.handed
                     && e.notifications == if Full(d, listening) then d.notifications else d.notifications + [frame])
  }

  lemma QueueTakes(d: Driver, frame: Frame, listening: set<WaiterId>)
    ensures var (e, done) := QueueOrDeliver(d, frame, listening);
            TakenBy(d, e, frame, listening) && (done.Err? <==> Full(d, listening))
  {
    OfferReaches(d, frame, listening);
    OfferLeaves(d, frame, listening);
  }

  /** A notification that arrives on the live stream. */
  lemma NotificationIsTaken(d: Driver, frame: Frame, listening: set<WaiterId>)
    requires IsNotification(frame)
    ensures var (e, done) := HandleReceivedFrame(d, frame, listening);
            TakenBy(d, e, frame, listening) && (done.Err? <==> Full(d, listening))
  {
    QueueTakes(d, frame, listening);
  }

  /** A notification that comes first while the response to a replay is awaited:
      it is taken in the same way, and unless it overflows the waiting goes on
      with what follows it. */
  lemma ReplayedNotificationIsTaken(d: Driver, requestId: nat, frames: seq<Frame>, fault: NetworkError, listening: set<WaiterId>)
    requires frames != [] && IsNotification(frames[0])
    ensures exists e: Driver ::
              && TakenBy(d, e, frames[0], listening)
              && AwaitReplay(d, requestId, frames, fault, listening)
                 == if Full(d, listening) then (e, Err(UnexpectedResponse)) else AwaitReplay(e, requestId, frames[1..], fault, listening)
  {
    QueueTakes(d, frames[0], listening);
    hide TakenBy, Full, Offer;
    var (e, done) := QueueOrDeliver(d, frames[0], listening);
    assert TakenBy(d, e, frames[0], listening);
  }

  lemma NotificationPasses(d: Driver, frame: Frame, listening: set<WaiterId>)
    requires NotesKept(d)
    ensures Passed(QueueOrDeliver(d, frame, listening).0) == Passed(d) + if Full(d, listening) then [] else [frame]
  {
    QueueTakes(d, frame, listening);
    hide QueueOrDeliver, Frames, WaitersKept, FirstComeFirstServed;
    var e := QueueOrDeliver(d, frame, listening).0;
    if exists i :: 0 <= i < |d.waiters| && d.waiters[i] in listening {
      var i: nat :| FirstListening(d.waiters, listening, i) && e.handed == d.handed + [Handed(frame, d.waiters[i], true)];
      HandedAppend(d.handed, Handed(frame, d.waiters[i], true));
      assert d.notifications == [] && Passed(d) == Frames(d.handed);
    }
  }

  predicate SamePassed(d: Driver, e: Driver) {
    d.handed == e.handed && d.notifications == e.notifications
  }

  lemma SameReads(d: Driver, e: Driver, frames: seq<Frame>, listening: set<WaiterId>)
    requires d.waiters == e.waiters && d.notifications == e.notifications
    ensures ReadWhileAwaiting(d, frames, listening) == ReadWhileAwaiting(e, frames, listening)
    decreases frames
  {
    if frames != [] {
      hide QueueOrDeliver;
      SameQueued(d, e, frames[0], listening);
      SameReads(QueueOrDeliver(d, frames[0], listening).0, QueueOrDeliver(e, frames[0], listening).0, frames[1..], listening);
    }
  }

  lemma SameQueued(d: Driver, e: Driver, frame: Frame, listening: set<WaiterId>)
    requires d.waiters == e.waiters && d.notifications == e.notifications
    ensures var f, g := QueueOrDeliver(d, frame, listening).0, QueueOrDeliver(e, frame, listening).0;
            f.waiters == g.waiters && f.notifications == g.notifications
  {
    SameOffered(d, e, frame, listening);
  }

  lemma {:induction false} SameOffered(d: Driver, e: Driver, frame: Frame, listening: set<WaiterId>)
    requires d.waiters == e.waiters && d.notifications == e.notifications
    ensures var (f, x) := Offer(d, frame, listening); var (g, y) := Offer(e, frame, listening);
            x == y && f.waiters == g.waiters && f.notifications == g.notifications
    decreases |d.waiters|
  {
    if d.waiters != [] && d.waiters[0] !in listening {
      SameOffered(d.(waiters := d.waiters[1..], waitersGone := d.waitersGone + [d.waiters[0]]),
                  e.(waiters := e.waiters[1..], waitersGone := e.waitersGone + [e.waiters[0]]), frame, listening);
    }
  }

  /** While a response is awaited, no notification that is read gets lost but by
      overflow, and an overflow ends the waiting. */
  lemma {:induction false} AwaitPasses(d: Driver, requestId: nat, frames: seq<Frame>, fault: NetworkError, listening: set<WaiterId>)
    requires NotesKept(d)
    ensures var e := AwaitReplay(d, requestId, frames, fault, listening).0;
            NotesKept(e) && Passed(e) == Passed(d) + Taken(ReadWhileAwaiting(d, frames, listening))
    decreases frames
  {
    hide QueueOrDeliver, NotesKept, AllHeard, Passed, Full, ValidateResponse, Taken;
    AwaitKeeps(d, requestId, frames, fault, listening, None);
    assert Taken([]) == [] by { TakenNone(); }
    Joined(Passed(d), [], []);
    if frames != [] && IsNotification(frames[0]) {
      NotificationPasses(d, frames[0], listening);
      TakenOrFull(d, frames[0], listening);
      if Full(d, listening) {
        TakenFirst(Read(frames[0], true), []);
      } else {
        var queued := QueueOrDeliver(d, frames[0], listening).0;
        QueueOrDeliverKeeps(d, frames[0], listening, None);
        AwaitPasses(queued, requestId, frames[1..], fault, listening);
        var later := ReadWhileAwaiting(queued, frames[1..], listening);
        TakenFirst(Read(frames[0], false), later);
        Joined(Passed(d), [frames[0]], Taken(later));
      }
    }
  }

  lemma TakenNone()
    ensures Taken([]) == []
  {
  }

  lemma TakenOrFull(d: Driver, frame: Frame, listening: set<WaiterId>)
    ensures QueueOrDeliver(d, frame, listening).1.Err? <==> Full(d, listening)
  {
    QueueTakes(d, frame, listening);
  }

  lemma ReplayOnePasses(d: Driver, stream: Stream, payload: seq<byte>, replay: Replay, listening: set<WaiterId>)
    requires NotesKept(d)
    ensures var e := ReplayOne(d, stream, payload, replay, listening).0;
            NotesKept(e) && Passed(e) == Passed(d)
                            + Taken(if replay.encoded && replay.sent then ReadWhileAwaiting(d, replay.frames, listening) else [])
  {
    hide AwaitReplay, NotesKept, AllHeard, Frames, ReadWhileAwaiting, Taken;
    var numbered := d.(nextRequest := d.nextRequest + 1);
    var (put, _) := Put(numbered, stream, Sent(d.nextRequest, Subscribe, payload, None));
    SameKeeps(d, numbered, None);
    SameKeeps(d, put, None);
    SameReads(d, put, replay.frames, listening);
    TakenNone();
    Joined(Passed(d), [], []);
    AwaitPasses(put, d.nextRequest, replay.frames, replay.fault, listening);
  }

  lemma {:induction false} ReplayPasses(d: Driver, stream: Stream, payloads: seq<seq<byte>>, replays: seq<Replay>, listening: set<WaiterId>)
    requires NotesKept(d)
    ensures var e := ReplaySubscriptions(d, stream, payloads, replays, listening).0;
            NotesKept(e) && Passed(e) == Passed(d) + Taken(ReadWhileReplaying(d, stream, payloads, replays, listening))
    decreases payloads
  {
    hide ReplayOne, NotesKept, Passed, ReadWhileAwaiting, Taken;
    TakenNone();
    Joined(Passed(d), [], []);
    if payloads != [] {
      var replay := if replays == [] then NO_REPLAY else replays[0];
      ReplayOnePasses(d, stream, payloads[0], replay, listening);
      var (next, made) := ReplayOne(d, stream, payloads[0], replay, listening);
      if replays == [] {
        NoReplayLeaves(d, stream, payloads[0], listening);
      } else {
        var read := if replay.encoded && replay.sent then ReadWhileAwaiting(d, replay.frames, listening) else [];
        if made.Ok? {
          ReplayPasses(next, made.value, payloads[1..], replays[1..], listening);
          var later := ReadWhileReplaying(next, made.value, payloads[1..], replays[1..], listening);
          TakenConcat(read, later);
          Joined(Passed(d), Taken(read), Taken(later));
        } else {
          assert read + [] == read;
        }
      }
    }
  }

  lemma NoReplayLeaves(d: Driver, stream: Stream, payload: seq<byte>, listening: set<WaiterId>)
    ensures ReplayOne(d, stream, payload, NO_REPLAY, listening).1.Err?
    ensures ReadWhileAwaiting(d, NO_REPLAY.frames, listening) == []
  {
  }

  lemma {:induction false} WaitersLeavePassed(d: Driver, error: NetworkError)
    ensures SamePassed(d, FailAllNotificationWaiters(d, error))
    decreases |d.waiters|
  {
    if d.waiters != [] {
      WaitersLeavePassed(d.(waiters := d.waiters[1..], waitersFailed := d.waitersFailed + [(d.waiters[0], error)]), error);
    }
  }

  lemma ConnectPasses(d: Driver, t: Turn)
    requires NotesKept(d)
    ensures var e := Connect(d, t).0;
            NotesKept(e) && Passed(e) == Passed(d)
              + Taken(if ShouldEstablish(d) && t.connected.Ok?
                      then ReadWhileReplaying(d, Stream([], 0), d.subscriptions, t.replays, t.listening) else [])
  {
    hide FailAllQueuedCalls, FailAllNotificationWaiters, ReplaySubscriptions, NotesKept, AllHeard, Frames, ReadWhileReplaying, Taken;
    ConnectKeeps(d, t, None);
    TakenNone();
    Joined(Passed(d), [], []);
    if ShouldEstablish(d) {
      var (e, made) := EstablishStream(d, t);
      if t.connected.Ok? { ReplayPasses(d, Stream([], 0), d.subscriptions, t.replays, t.listening); }
      if made.Err? {
        FailQueuedSame(e, made.error);
        WaitersLeavePassed(FailAllQueuedCalls(e, made.error), made.error);
      }
    }
  }

  lemma StartPasses(d: Driver, t: Turn)
    requires NotesKept(d)
    ensures NotesKept(StartNextQueuedCall(d, t).0) && Passed(StartNextQueuedCall(d, t).0) == Passed(d)
  {
    StartSame(d, t);
    hide StartNextQueuedCall;
    SameKeeps(d, StartNextQueuedCall(d, t).0, None);
  }

  lemma CommandPasses(d: Driver, command: Command, listening: set<WaiterId>)
    ensures Passed(HandleCommand(d, command, listening)) == Passed(d)
  {
    if command.NextNotification? && d.notifications != [] {
      HandedAppend(d.handed, Handed(d.notifications[0], command.waiter, command.waiter in listening));
      assert d.notifications == [d.notifications[0]] + d.notifications[1..];
    }
  }

  lemma LosePasses(d: Driver, error: NetworkError)
    ensures Passed(LoseStream(d, error)) == Passed(d)
  {
    hide FailAllNotificationWaiters;
    WaitersLeavePassed(FailActiveCall(d, error), error);
  }

  lemma FinishPasses(d: Driver)
    ensures Passed(Finish(d)) == Passed(d)
  {
    hide FailAllNotificationWaiters, FailAllQueuedCalls;
    var failed := FailActiveCall(d, ConnectionFailed);
    FailQueuedSame(failed, ConnectionFailed);
    WaitersLeavePassed(FailAllQueuedCalls(failed, ConnectionFailed), ConnectionFailed);
  }

  /** A frame that arrives: a notification is taken unless it overflows, and
      nothing else touches the queue. */
  lemma FramePasses(d: Driver, frame: Frame, listening: set<WaiterId>)
    requires NotesKept(d)
    ensures var (e, done) := HandleReceivedFrame(d, frame, listening);
            && Passed(e) == Passed(d) + (if IsNotification(frame) && !Full(d, listening) then [frame] else [])
            && (IsNotification(frame) && Full(d, listening) ==> done.Err?)
  {
    assert Passed(d) + [] == Passed(d);
    if IsNotification(frame) {
      NotificationPasses(d, frame, listening);
      TakenOrFull(d, frame, listening);
    } else if frame.decoded.Ok? && frame.decoded.value.id.Some? {
      ResponseSame(d, frame, frame.decoded.value.id.value);
    }
  }

  lemma SelectPasses(d: Driver, t: Turn)
    requires NotesKept(d)
    ensures Passed(Select(d, t).0) == Passed(d)
              + (if d.stream.Some? && t.event.Arrived? && IsNotification(t.event.frame) && !Full(d, t.listening) then [t.event.frame] else [])
  {
    hide Passed, Full, NotesKept, IsNotification, HandleReceivedFrame, LoseStream, Finish, HandleCommand;
    assert Passed(d) + [] == Passed(d);
    match t.event
    case Shutdown => FinishPasses(d);
    case CommandsClosed => FinishPasses(d);
    case Commanded(command) => CommandPasses(d, command, t.listening);
    case Arrived(frame) =>
      FramePasses(d, frame, t.listening);
      var (handled, done) := HandleReceivedFrame(d, frame, t.listening);
      if done.Err? { LosePasses(handled, done.error); }
    case Fault(error) => LosePasses(d, error);
    case Deadline => LosePasses(d, ResponseTimeout);
  }

  /** Up to its event a turn takes what it reads while connecting. */
  lemma BeginPasses(d: Driver, t: Turn)
    requires NotesKept(d) && !t.stop
    ensures var numbered := d.(nextRequest := d.nextRequest + t.idsUsedElsewhere);
            var ready := Connect(DispatchQueuedNotifications(numbered, t.listening), t).0;
            NotesKept(ready) && Passed(ready) == Passed(d) + Taken(ReadWhileConnecting(d, t))
  {
    hide NotesKept, AllHeard, Frames, Connect, DispatchQueuedNotifications, ReadWhileReplaying, Taken;
    var numbered := d.(nextRequest := d.nextRequest + t.idsUsedElsewhere);
    SameKeeps(d, numbered, None);
    DispatchIsIdle(numbered, t.listening);
    ConnectPasses(numbered, t);
  }

  lemma TurnPasses(d: Driver, t: Turn)
    requires NotesKept(d)
    ensures Passed(TurnOnce(d, t).0) == Passed(d) + Taken(TurnReads(d, t))
  {
    hide NotesKept, Passed, Connect, DispatchQueuedNotifications, StartNextQueuedCall, Select, Finish,
      FailAllNotificationWaiters, ReadWhileConnecting, Full;
    TakenConcat(ReadWhileConnecting(d, t), ReadAtEvent(d, t));
    if t.stop {
      FinishPasses(d);
      assert ReadWhileConnecting(d, t) == [] by { NothingReadOnStop(d, t); }
      assert Passed(d) + [] == Passed(d);
    } else {
      var numbered := d.(nextRequest := d.nextRequest + t.idsUsedElsewhere);
      var (ready, connected) := Connect(DispatchQueuedNotifications(numbered, t.listening), t);
      BeginPasses(d, t);
      StartPasses(ready, t);
      var (started, done) := StartNextQueuedCall(ready, t);
      assert Passed(ready) + [] == Passed(ready);
      if connected.Ok? && done.Err? {
        FailedStartPasses(started, done.error);
      } else if connected.Ok? {
        SelectPasses(started, t);
        var event := ReadAtEvent(d, t);
        assert event != [] ==> Taken(event) == (if event[0].refused then [] else [event[0].frame]) + Taken([]);
        assert (Passed(d) + Taken(ReadWhileConnecting(d, t))) + Taken(event)
               == Passed(d) + (Taken(ReadWhileConnecting(d, t)) + Taken(event));
      }
    }
  }

  lemma NothingReadOnStop(d: Driver, t: Turn)
    requires t.stop
    ensures ReadWhileConnecting(d, t) == []
  {
  }

  lemma FailedStartPasses(d: Driver, error: NetworkError)
    ensures Passed(FailAllNotificationWaiters(d, error).(stream := None)) == Passed(d)
  {
    hide FailAllNotificationWaiters;
    WaitersLeavePassed(d, error);
  }

  lemma {:induction false} RunPasses(d: Driver, turns: seq<Turn>)
    requires NotesKept(d)
    ensures Passed(Run(d, turns)) == Passed(d) + Taken(RunReads(d, turns))
    decreases turns
  {
    hide NotesKept, Passed, TurnOnce, TurnReads;
    assert Passed(d) + [] == Passed(d);
    if turns != [] {
      TurnPasses(d, turns[0]);
      TurnKeeps(d, turns[0], None);
      var (next, goesOn) := TurnOnce(d, turns[0]);
      var read := TurnReads(d, turns[0]);
      if goesOn {
        RunPasses(next, turns[1..]);
        var later := RunReads(next, turns[1..]);
        TakenConcat(read, later);
        assert (Passed(d) + Taken(read)) + Taken(later) == Passed(d) + (Taken(read) + Taken(later));
      } else {
        assert read + [] == read;
      }
    }
  }

  // ----- Overflow -----

  predicate NoneRefused(arrivals: seq<Read>) {
    forall k :: 0 <= k < |arrivals| ==> !arrivals[k].refused
  }

  lemma {:induction false} AwaitOverflow(d: Driver, requestId: nat, frames: seq<Frame>, fault: NetworkError, listening: set<WaiterId>)
    ensures AwaitReplay(d, requestId, frames, fault, listening).1.Ok? ==> NoneRefused(ReadWhileAwaiting(d, frames, listening))
    decreases frames
  {
    hide QueueOrDeliver, Full, ValidateResponse;
    if frames != [] && IsNotification(frames[0]) {
      TakenOrFull(d, frames[0], listening);
      AwaitOverflow(QueueOrDeliver(d, frames[0], listening).0, requestId, frames[1..], fault, listening);
    }
  }

  lemma {:induction false} ReplayOverflow(d: Driver, stream: Stream, payloads: seq<seq<byte>>, replays: seq<Replay>, listening: set<WaiterId>)
    ensures ReplaySubscriptions(d, stream, payloads, replays, listening).1.Ok? ==>
              NoneRefused(ReadWhileReplaying(d, stream, payloads, replays, listening))
    decreases payloads
  {
    if payloads != [] && replays != [] {
      ReplayOneOverflow(d, stream, payloads[0], replays[0], listening);
      hide ReplayOne, ReadWhileAwaiting;
      var (next, made) := ReplayOne(d, stream, payloads[0], replays[0], listening);
      if made.Ok? { ReplayOverflow(next, made.value, payloads[1..], replays[1..], listening); }
    }
  }

  lemma ReplayOneOverflow(d: Driver, stream: Stream, payload: seq<byte>, replay: Replay, listening: set<WaiterId>)
    ensures ReplayOne(d, stream, payload, replay, listening).1.Ok? ==> NoneRefused(ReadWhileAwaiting(d, replay.frames, listening))
  {
    hide AwaitReplay, ReadWhileAwaiting;
    var (put, _) := Put(d.(nextRequest := d.nextRequest + 1), stream, Sent(d.nextRequest, Subscribe, payload, None));
    AwaitOverflow(put, d.nextRequest, replay.frames, replay.fault, listening);
    SameReads(d, put, replay.frames, listening);
  }

  lemma {:induction false} ReplayKeepsNoStream(d: Driver, stream: Stream, payloads: seq<seq<byte>>, replays: seq<Replay>, listening: set<WaiterId>)
    ensures ReplaySubscriptions(d, stream, payloads, replays, listening).0.stream == d.stream
    decreases payloads
  {
    ReplayForgetsNothing(d, stream, payloads, replays, listening);
  }

  /** An overflow is the last thing a turn reads, and it costs the stream. */
  lemma OverflowLosesTheStream(d: Driver, t: Turn)
    requires !NoneRefused(TurnReads(d, t))
    ensures TurnOnce(d, t).0.stream.None?
    ensures NoneRefused(ReadWhileConnecting(d, t)) || AtEvent(d, t).None?
  {
    hide ReplaySubscriptions, FailAllQueuedCalls, FailAllNotificationWaiters, DispatchQueuedNotifications, StartNextQueuedCall,
      ReadWhileReplaying, Select, Full, IsNotification;
    if !NoneRefused(ReadWhileConnecting(d, t)) {
      var dispatched := DispatchQueuedNotifications(d.(nextRequest := d.nextRequest + t.idsUsedElsewhere), t.listening);
      ReplayOverflow(dispatched, Stream([], 0), dispatched.subscriptions, t.replays, t.listening);
      ReplayKeepsNoStream(dispatched, Stream([], 0), dispatched.subscriptions, t.replays, t.listening);
      var (e, made) := EstablishStream(dispatched, t);
      FailedConnectHasNoStream(e, made.error);
    } else {
      EventOverflow(d, t);
    }
  }

  lemma FailedConnectHasNoStream(e: Driver, error: NetworkError)
    ensures FailAllNotificationWaiters(FailAllQueuedCalls(e, error), error).stream == e.stream
  {
    FailQueuedStreams(e, error);
    WaitersSame(FailAllQueuedCalls(e, error), error);
  }

  lemma EventOverflow(d: Driver, t: Turn)
    requires !NoneRefused(ReadAtEvent(d, t))
    ensures TurnOnce(d, t).0.stream.None?
  {
    TurnFromEvent(d, t);
    hide TurnOnce, AtEvent;
    TakenOrFull(AtEvent(d, t).value, t.event.frame, t.listening);
  }

  // ----- Requesters that gave up -----

  /** The frames that reached someone. */
  function Heard(handed: seq<Handed>): (frames: seq<Frame>)
    ensures |frames| <= |handed|
  {
    if handed == [] then []
    else
      var last := handed[|handed| - 1];
      Heard(handed[..|handed| - 1]) + if last.heard then [last.frame] else []
  }

  lemma {:induction false} AllHeardAreFrames(handed: seq<Handed>)
    ensures |Heard(handed)| == |handed| <==> (forall i :: 0 <= i < |handed| ==> handed[i].heard)
    ensures (forall i :: 0 <= i < |handed| ==> handed[i].heard) ==> Heard(handed) == Frames(handed)
  {
    if handed != [] {
      var before, last := handed[..|handed| - 1], handed[|handed| - 1];
      AllHeardAreFrames(before);
      HandedAppend(before, last);
      assert before + [last] == handed;
      assert forall i :: 0 <= i < |before| ==> before[i] == handed[i];
    }
  }

  /** The turn's event is a request for a notification, one is queued, and the
      requester no longer listens. */
  predicate GivesAway(d: Driver, t: Turn) {
    var at := AtEvent(d, t);
    && at.Some? && at.value.notifications != []
    && t.event.Commanded? && t.event.command.NextNotification? && t.event.command.waiter !in t.listening
  }

  /** What is handed out from one state to the other was heard, or not. */
  predicate NewAreHeard(d: Driver, e: Driver) {
    d.handed <= e.handed && forall i :: |d.handed| <= i < |e.handed| ==> e.handed[i].heard
  }

  predicate NewAreNotAllHeard(d: Driver, e: Driver) {
    d.handed <= e.handed && exists i :: |d.handed| <= i < |e.handed| && !e.handed[i].heard
  }

  lemma HeardOn(d: Driver, e: Driver, f: Driver)
    requires NewAreHeard(d, e)
    ensures NewAreHeard(e, f) ==> NewAreHeard(d, f)
    ensures NewAreNotAllHeard(e, f) ==> NewAreNotAllHeard(d, f)
  {
    if d.handed <= e.handed <= f.handed {
      assert forall i :: 0 <= i < |e.handed| ==> e.handed[i] == f.handed[i];
    }
  }

  lemma HeardOff(d: Driver, e: Driver, f: Driver)
    requires NewAreNotAllHeard(d, e) && e.handed <= f.handed
    ensures NewAreNotAllHeard(d, f)
  {
    var i :| |d.handed| <= i < |e.handed| && !e.handed[i].heard;
    assert f.handed[i] == e.handed[i];
  }

  lemma {:induction false} OfferIsHeard(d: Driver, frame: Frame, listening: set<WaiterId>)
    ensures NewAreHeard(d, Offer(d, frame, listening).0)
    decreases |d.waiters|
  {
    if d.waiters != [] && d.waiters[0] !in listening {
      OfferIsHeard(d.(waiters := d.waiters[1..], waitersGone := d.waitersGone + [d.waiters[0]]), frame, listening);
    }
  }

  lemma QueueIsHeard(d: Driver, frame: Frame, listening: set<WaiterId>)
    ensures NewAreHeard(d, QueueOrDeliver(d, frame, listening).0)
  {
    hide Offer;
    OfferIsHeard(d, frame, listening);
  }

  lemma {:induction false} AwaitIsHeard(d: Driver, requestId: nat, frames: seq<Frame>, fault: NetworkError, listening: set<WaiterId>)
    ensures NewAreHeard(d, AwaitReplay(d, requestId, frames, fault, listening).0)
    decreases frames
  {
    hide QueueOrDeliver, NewAreHeard;
    SameIsHeard(d, d);
    if frames != [] {
      var queued := QueueOrDeliver(d, frames[0], listening).0;
      QueueIsHeard(d, frames[0], listening);
      AwaitIsHeard(queued, requestId, frames[1..], fault, listening);
      HeardOn(d, queued, AwaitReplay(queued, requestId, frames[1..], fault, listening).0);
    }
  }

  lemma SameIsHeard(d: Driver, e: Driver)
    requires d.handed == e.handed
    ensures NewAreHeard(d, e)
  {
  }

  lemma ReplayOneIsHeard(d: Driver, stream: Stream, payload: seq<byte>, replay: Replay, listening: set<WaiterId>)
    ensures NewAreHeard(d, ReplayOne(d, stream, payload, replay, listening).0)
  {
    hide AwaitReplay;
    var (put, _) := Put(d.(nextRequest := d.nextRequest + 1), stream, Sent(d.nextRequest, Subscribe, payload, None));
    AwaitIsHeard(put, d.nextRequest, replay.frames, replay.fault, listening);
  }

  lemma {:induction false} ReplayIsHeard(d: Driver, stream: Stream, payloads: seq<seq<byte>>, replays: seq<Replay>, listening: set<WaiterId>)
    ensures NewAreHeard(d, ReplaySubscriptions(d, stream, payloads, replays, listening).0)
    decreases payloads
  {
    hide ReplayOne, NewAreHeard;
    SameIsHeard(d, d);
    if payloads != [] {
      var replay := if replays == [] then NO_REPLAY else replays[0];
      ReplayOneIsHeard(d, stream, payloads[0], replay, listening);
      var (next, made) := ReplayOne(d, stream, payloads[0], replay, listening);
      if made.Ok? {
        var later := if replays == [] then [] else replays[1..];
        ReplayIsHeard(next, made.value, payloads[1..], later, listening);
        HeardOn(d, next, ReplaySubscriptions(next, made.value, payloads[1..], later, listening).0);
      }
    }
  }

  lemma ConnectIsHeard(d: Driver, t: Turn)
    ensures NewAreHeard(d, Connect(d, t).0)
  {
    hide FailAllQueuedCalls, FailAllNotificationWaiters, ReplaySubscriptions;
    if ShouldEstablish(d) {
      ReplayIsHeard(d, Stream([], 0), d.subscriptions, t.replays, t.listening);
      var (e, made) := EstablishStream(d, t);
      if made.Err? {
        FailQueuedSame(e, made.error);
        WaitersLeavePassed(FailAllQueuedCalls(e, made.error), made.error);
      }
    }
  }

  lemma FrameIsHeard(d: Driver, frame: Frame, listening: set<WaiterId>)
    ensures NewAreHeard(d, HandleReceivedFrame(d, frame, listening).0)
  {
    hide QueueOrDeliver;
    QueueIsHeard(d, frame, listening);
    if frame.decoded.Ok? && frame.decoded.value.id.Some? { ResponseSame(d, frame, frame.decoded.value.id.value); }
  }

  lemma LoseIsHeard(d: Driver, error: NetworkError)
    ensures LoseStream(d, error).handed == d.handed
  {
    hide FailAllNotificationWaiters;
    WaitersLeavePassed(FailActiveCall(d, error), error);
  }

  lemma FinishIsHeard(d: Driver)
    ensures Finish(d).handed == d.handed
  {
    hide FailAllNotificationWaiters, FailAllQueuedCalls;
    var failed := FailActiveCall(d, ConnectionFailed);
    FailQueuedSame(failed, ConnectionFailed);
    WaitersLeavePassed(FailAllQueuedCalls(failed, ConnectionFailed), ConnectionFailed);
  }

  lemma SelectIsHeard(d: Driver, t: Turn)
    ensures var lost := d.notifications != [] && t.event.Commanded? && t.event.command.NextNotification? && t.event.command.waiter !in t.listening;
            if lost then NewAreNotAllHeard(d, Select(d, t).0) else NewAreHeard(d, Select(d, t).0)
  {
    hide HandleReceivedFrame, LoseStream, Finish;
    match t.event
    case Shutdown => FinishIsHeard(d);
    case CommandsClosed => FinishIsHeard(d);
    case Commanded(command) =>
      if command.NextNotification? && d.notifications != [] {
        var e := HandleCommand(d, command, t.listening);
        assert e.handed[|d.handed|] == Handed(d.notifications[0], command.waiter, command.waiter in t.listening);
      }
    case Arrived(frame) =>
      FrameIsHeard(d, frame, t.listening);
      var (handled, done) := HandleReceivedFrame(d, frame, t.listening);
      if done.Err? { LoseIsHeard(handled, done.error); }
    case Fault(error) => LoseIsHeard(d, error);
    case Deadline => LoseIsHeard(d, ResponseTimeout);
  }

  lemma BeginIsHeard(d: Driver, t: Turn)
    requires NotesKept(d)
    ensures NewAreHeard(d, Connect(DispatchQueuedNotifications(d.(nextRequest := d.nextRequest + t.idsUsedElsewhere), t.listening), t).0)
  {
    hide Connect, AllHeard, Frames;
    var numbered := d.(nextRequest := d.nextRequest + t.idsUsedElsewhere);
    SameKeeps(d, numbered, None);
    DispatchIsIdle(numbered, t.listening);
    ConnectIsHeard(numbered, t);
  }

  /** In one turn, nobody is given a frame in vain exactly when it does not give
      one away. */
  lemma TurnIsHeard(d: Driver, t: Turn)
    requires NotesKept(d)
    ensures if GivesAway(d, t) then NewAreNotAllHeard(d, TurnOnce(d, t).0) else NewAreHeard(d, TurnOnce(d, t).0)
  {
    hide NotesKept, NewAreHeard, NewAreNotAllHeard, Connect, DispatchQueuedNotifications, StartNextQueuedCall, Select, Finish,
      FailAllNotificationWaiters;
    if t.stop {
      FinishIsHeard(d);
      SameIsHeard(d, Finish(d));
    } else {
      var numbered := d.(nextRequest := d.nextRequest + t.idsUsedElsewhere);
      var (ready, connected) := Connect(DispatchQueuedNotifications(numbered, t.listening), t);
      BeginIsHeard(d, t);
      if connected.Ok? {
        var (started, done) := StartNextQueuedCall(ready, t);
        StartSame(ready, t);
        SameIsHeard(ready, started);
        HeardOn(d, ready, started);
        if done.Err? {
          WaitersLeavePassed(started, done.error);
          SameIsHeard(started, TurnOnce(d, t).0);
          HeardOn(d, started, TurnOnce(d, t).0);
        } else {
          SelectIsHeard(started, t);
          HeardOn(d, started, Select(started, t).0);
        }
      }
    }
  }

  /** No turn of the run gives a frame away. */
  ghost predicate NoneGivenAway(d: Driver, turns: seq<Turn>) {
    forall i :: 0 <= i < |turns| && StateAt(d, turns, i).Some? ==> !GivesAway(StateAt(d, turns, i).value, turns[i])
  }

  lemma NoneGivenAwayFirst(d: Driver, turns: seq<Turn>)
    requires turns != []
    ensures NoneGivenAway(d, turns) <==>
            !GivesAway(d, turns[0]) && (TurnOnce(d, turns[0]).1 ==> NoneGivenAway(TurnOnce(d, turns[0]).0, turns[1..]))
  {
    hide TurnOnce, GivesAway;
    var (next, goesOn) := TurnOnce(d, turns[0]);
    assert StateAt(d, turns, 0) == Some(d);
    if goesOn {
      assert forall i :: 0 < i < |turns| ==> StateAt(d, turns, i) == StateAt(next, turns[1..], i - 1) && turns[i] == turns[1..][i - 1];
      if NoneGivenAway(d, turns) {
        forall i | 0 <= i < |turns[1..]| && StateAt(next, turns[1..], i).Some? ensures !GivesAway(StateAt(next, turns[1..], i).value, turns[1..][i]) {
          assert StateAt(d, turns, i + 1) == StateAt(next, turns[1..], i) && turns[i + 1] == turns[1..][i];
        }
      }
    }
  }

  lemma {:induction false} RunIsHeard(d: Driver, turns: seq<Turn>)
    requires NotesKept(d)
    ensures if NoneGivenAway(d, turns) then NewAreHeard(d, Run(d, turns)) else NewAreNotAllHeard(d, Run(d, turns))
    decreases turns
  {
    hide NotesKept, NewAreHeard, NewAreNotAllHeard, TurnOnce, GivesAway, NoneGivenAway, StateAt;
    if turns == [] {
      SameIsHeard(d, d);
      assert NoneGivenAway(d, turns) by { NothingGivenAway(d); }
    } else {
      NoneGivenAwayFirst(d, turns);
      TurnIsHeard(d, turns[0]);
      TurnKeeps(d, turns[0], None);
      var (next, goesOn) := TurnOnce(d, turns[0]);
      if goesOn {
        RunIsHeard(next, turns[1..]);
        if GivesAway(d, turns[0]) {
          HandedGrows(next, Run(next, turns[1..]));
          HeardOff(d, next, Run(next, turns[1..]));
        } else {
          HeardOn(d, next, Run(next, turns[1..]));
        }
      }
    }
  }

  lemma NothingGivenAway(d: Driver)
    ensures NoneGivenAway(d, [])
  {
  }

  lemma HandedGrows(d: Driver, e: Driver)
    requires NewAreHeard(d, e) || NewAreNotAllHeard(d, e)
    ensures d.handed <= e.handed
  {
  }

  // ----- Main results -----

  /** Over every run of a new driver the queue of notifications and the queue
      of waiters are never both in use, the first is bounded, every notification
      that arrived and did not overflow was handed out in order of arrival or is
      still queued, and every waiter is accounted for exactly once. */
  lemma NotificationsOverEveryRun(turns: seq<Turn>)
    ensures var d := Run(IDLE, turns);
            && (d.notifications == [] || d.waiters == [])
            && |d.notifications| <= MAX_QUEUED_NOTIFICATIONS
            && Taken(RunReads(IDLE, turns)) == Frames(d.handed) + d.notifications
            && multiset(d.waitersAccepted)
                 == multiset(d.waiters) + multiset(Served(d.handed)) + multiset(Told(d.waitersFailed)) + multiset(d.waitersGone)
            && (d.waitersFailed == [] && d.waitersGone == [] ==> d.waitersAccepted == Served(d.handed) + d.waiters)
  {
    hide TurnOnce, Run, RunReads;
    IdleKept();
    RunKeeps(IDLE, turns, None);
    RunPasses(IDLE, turns);
    assert Passed(IDLE) == [];
    assert [] + Taken(RunReads(IDLE, turns)) == Taken(RunReads(IDLE, turns));
  }

  /** When everyone who asks keeps listening, every frame handed out is heard: all
      that arrived and did not overflow was delivered, or is queued behind what
      was delivered. */
  lemma LiveWaitersMissNothing(turns: seq<Turn>, live: set<WaiterId>)
    requires forall i :: 0 <= i < |turns| ==> AllListen(turns[i], Some(live))
    ensures var d := Run(IDLE, turns);
            && d.waitersGone == [] && (forall i :: 0 <= i < |d.handed| ==> d.handed[i].heard)
            && Taken(RunReads(IDLE, turns)) == Heard(d.handed) + d.notifications
  {
    hide TurnOnce, Run, RunReads, Heard;
    IdleKept();
    RunKeeps(IDLE, turns, Some(live));
    NotificationsOverEveryRun(turns);
    AllHeardAreFrames(Run(IDLE, turns).handed);
  }

  /** Nothing that arrived and did not overflow is lost exactly when every request
      for a notification that the driver reads while one is queued comes from a
      requester that still listens. */
  lemma NothingLostExactlyWhenNoneGivenAway(turns: seq<Turn>)
    ensures var d := Run(IDLE, turns);
            Taken(RunReads(IDLE, turns)) == Heard(d.handed) + d.notifications <==> NoneGivenAway(IDLE, turns)
  {
    hide TurnOnce, Run, RunReads, Heard, NoneGivenAway;
    IdleKept();
    NotificationsOverEveryRun(turns);
    RunIsHeard(IDLE, turns);
    AllHeardAreFrames(Run(IDLE, turns).handed);
  }

  function Quiet(listening: set<WaiterId>, event: Event): Turn {
    Turn(false, 0, listening, Ok(()), [], true, true, event)
  }

  /** With a live stream and nothing else going on, a turn is its event. */
  lemma QuietTurn(d: Driver, t: Turn)
    requires d.stream.Some? && d.queued == [] && (d.notifications == [] || d.waiters == [])
    requires !t.stop && t.idsUsedElsewhere == 0
    ensures TurnOnce(d, t) == Select(d, t)
  {
    hide Select;
    assert d.(nextRequest := d.nextRequest + 0) == d;
    assert DispatchQueuedNotifications(d, t.listening) == d;
  }

  lemma FirstTurns(frame: Frame)
    requires IsNotification(frame)
    ensures TurnOnce(IDLE, Quiet({1}, Commanded(NextNotification(1)))) == (IDLE.(waiters := [1], waitersAccepted := [1]), true)
    ensures TurnOnce(IDLE.(waiters := [1], waitersAccepted := [1]), Quiet({1}, Arrived(frame)))
              == (IDLE.(stream := Some(Stream([], 0)), waitersAccepted := [1], handed := [Handed(frame, 1, true)]), true)
  {
    var d := IDLE.(waiters := [1], waitersAccepted := [1]);
    assert IDLE.waitersAccepted + [1] == [1] && IDLE.waiters + [1] == [1];
    assert d.waiters[1..] == [] && d.handed + [Handed(frame, 1, true)] == [Handed(frame, 1, true)];
  }

  lemma LaterTurns(d: Driver, frame: Frame)
    requires IsNotification(frame) && d.stream.Some? && d.queued == [] && d.waiters == [] && d.notifications == []
    ensures TurnOnce(d, Quiet({1}, Arrived(frame))) == (d.(notifications := [frame]), true)
    ensures TurnOnce(d.(notifications := [frame]), Quiet({1}, Commanded(NextNotification(2))))
              == (d.(waitersAccepted := d.waitersAccepted + [2], handed := d.handed + [Handed(frame, 2, false)]), true)
  {
    QuietTurn(d, Quiet({1}, Arrived(frame)));
    QuietTurn(d.(notifications := [frame]), Quiet({1}, Commanded(NextNotification(2))));
    hide TurnOnce;
    assert d.notifications + [frame] == [frame] && [frame][1..] == [];
  }

  /** It can happen: a second frame is queued, its requester gives up before the
      driver reads the request, and the frame is gone. */
  lemma AFrameCanBeLost(frame: Frame)
    requires IsNotification(frame)
    ensures var d := Run(IDLE, [Quiet({1}, Commanded(NextNotification(1))), Quiet({1}, Arrived(frame)),
                                Quiet({1}, Arrived(frame)), Quiet({1}, Commanded(NextNotification(2)))]);
            Taken(RunReads(IDLE, [Quiet({1}, Commanded(NextNotification(1))), Quiet({1}, Arrived(frame)),
                                  Quiet({1}, Arrived(frame)), Quiet({1}, Commanded(NextNotification(2)))])) == [frame, frame]
            && Heard(d.handed) + d.notifications == [frame]
  {
    hide TurnOnce, Quiet, IsNotification, RunReads;
    var t1, t2, t3 := Quiet({1}, Commanded(NextNotification(1))), Quiet({1}, Arrived(frame)), Quiet({1}, Commanded(NextNotification(2)));
    FirstTurns(frame);
    var d2 := IDLE.(stream := Some(Stream([], 0)), waitersAccepted := [1], handed := [Handed(frame, 1, true)]);
    LaterTurns(d2, frame);
    var d3 := d2.(notifications := [frame]);
    var d4 := TurnOnce(d3, t3).0;
    assert [t1, t2, t2, t3][1..] == [t2, t2, t3] && [t2, t2, t3][1..] == [t2, t3] && [t2, t3][1..] == [t3] && [t3][1..] == [];
    assert Run(d3, [t3]) == d4;
    assert Run(d2, [t2, t3]) == d4;
    HeardTwo(Handed(frame, 1, true), Handed(frame, 2, false));
    NotificationsOverEveryRun([t1, t2, t2, t3]);
  }

  lemma HeardTwo(a: Handed, b: Handed)
    requires a.heard && !b.heard
    ensures Heard([a] + [b]) == [a.frame]
  {
    assert ([a] + [b])[..1] == [a] && [a][..0] == [];
    assert Heard([a]) == [] + [a.frame];
  }
}
