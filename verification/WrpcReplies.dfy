/** What every run of the driver keeps about calls, and where their replies come
    from. */
module WrpcReplies {
  import opened Common
  import opened WrpcTypes
  import opened WrpcDriver
  import opened WrpcCalls
  import opened WrpcQuiet

  /** The turn's event is a frame that arrives on the live stream, and it is a
      successful response to the active request, which is on the wire. */
  predicate AnsweredBy(before: Driver, t: Turn, r: Resolution) {
    && r.outcome.Replied? && t.event == Arrived(r.outcome.frame)
    && before.stream.Some? && before.active.Some? && before.active.value.call == r.call
    && ActiveOnWire(before.wire, before.active.value)
    && ValidateResponse(r.outcome.frame, before.active.value.requestId, before.active.value.operation) == Ok(r.outcome.payload)
  }

  /** Resolution `k` of the run that starts with `d` was made by the event of
      turn `i`. */
  predicate ArrivedFrom(d: Driver, turns: seq<Turn>, r: Resolution, k: nat, i: nat) {
    && i < |turns| && StateAt(d, turns, i).Some?
    && AtEvent(StateAt(d, turns, i).value, turns[i]).Some?
    && var before := AtEvent(StateAt(d, turns, i).value, turns[i]).value;
       |before.resolved| == k && AnsweredBy(before, turns[i], r)
  }

  predicate ArrivedDuring(turns: seq<Turn>, r: Resolution, k: nat, i: nat) {
    ArrivedFrom(IDLE, turns, r, k, i)
  }

  /** Resolutions are only added; a new reply is number `n` and came by the event. */
  predicate RepliesByEvent(d: Driver, e: Driver, at: Option<Driver>, t: Turn) {
    && d.resolved <= e.resolved
    && forall k :: |d.resolved| <= k < |e.resolved| && e.resolved[k].outcome.Replied? ==>
         at.Some? && |at.value.resolved| == k && AnsweredBy(at.value, t, e.resolved[k])
  }

  lemma QuietRepliesNothing(d: Driver, e: Driver, at: Option<Driver>, t: Turn)
    requires Quietly(d, e)
    ensures RepliesByEvent(d, e, at, t)
  {
  }

  lemma QuietBefore(d: Driver, b: Driver, e: Driver, at: Option<Driver>, t: Turn)
    requires Quietly(d, b) && RepliesByEvent(b, e, at, t)
    ensures RepliesByEvent(d, e, at, t)
  {
    assert forall k :: 0 <= k < |b.resolved| ==> e.resolved[k] == b.resolved[k];
  }

  lemma QuietAfter(d: Driver, e: Driver, f: Driver, at: Option<Driver>, t: Turn)
    requires RepliesByEvent(d, e, at, t) && Quietly(e, f)
    ensures RepliesByEvent(d, f, at, t)
  {
    assert forall k :: 0 <= k < |e.resolved| ==> f.resolved[k] == e.resolved[k];
  }

  // ----- One turn -----

  lemma FrameReplies(d: Driver, t: Turn)
    requires CallsAccounted(d) && d.stream.Some? && t.event.Arrived?
    ensures RepliesByEvent(d, HandleReceivedFrame(d, t.event.frame, t.listening).0, Some(d), t)
  {
    hide QueueOrDeliver, ValidateResponse, Ledger, RepliesAnswer;
    var frame := t.event.frame;
    if frame.decoded.Ok? && frame.decoded.value.id.None? {
      QueueSame(d, frame, t.listening);
    }
  }

  lemma SelectReplies(d: Driver, t: Turn)
    requires CallsAccounted(d)
    ensures RepliesByEvent(d, Select(d, t).0, Some(d), t)
  {
    hide CallsAccounted, RepliesByEvent, Quietly, HandleReceivedFrame, LoseStream, Finish, HandleCommand;
    NothingIsQuiet(d);
    QuietRepliesNothing(d, d, Some(d), t);
    match t.event
    case Shutdown => FinishIsQuiet(d); QuietRepliesNothing(d, Finish(d), Some(d), t);
    case CommandsClosed => FinishIsQuiet(d); QuietRepliesNothing(d, Finish(d), Some(d), t);
    case Commanded(command) =>
      CommandIsQuiet(d, command, t.listening);
      QuietRepliesNothing(d, HandleCommand(d, command, t.listening), Some(d), t);
    case Arrived(frame) =>
      if d.stream.Some? {
        FrameReplies(d, t);
        var (handled, done) := HandleReceivedFrame(d, frame, t.listening);
        if done.Err? {
          LoseIsQuiet(handled, done.error);
          QuietAfter(d, handled, LoseStream(handled, done.error), Some(d), t);
        }
      }
    case Fault(error) => LoseIsQuiet(d, error); QuietRepliesNothing(d, LoseStream(d, error), Some(d), t);
    case Deadline => LoseIsQuiet(d, ResponseTimeout); QuietRepliesNothing(d, LoseStream(d, ResponseTimeout), Some(d), t);
  }

  /** A turn up to its next call. */
  lemma ConnectedIsQuiet(d: Driver, t: Turn)
    requires CallsAccounted(d)
    ensures var ready := Connect(DispatchQueuedNotifications(d.(nextRequest := d.nextRequest + t.idsUsedElsewhere), t.listening), t).0;
            Quietly(d, ready) && CallsAccounted(ready)
  {
    hide CallsAccounted, Quietly, Connect, DispatchQueuedNotifications;
    var numbered := d.(nextRequest := d.nextRequest + t.idsUsedElsewhere);
    var dispatched := DispatchQueuedNotifications(numbered, t.listening);
    NumberedIsQuiet(d, t.idsUsedElsewhere);
    NextIdAccounted(d, t.idsUsedElsewhere);
    DispatchSame(numbered, t.listening);
    hide SameCalls;
    SameCallsAccounted(numbered, dispatched);
    SameIsQuiet(numbered, dispatched);
    QuietlyOn(d, numbered, dispatched);
    ConnectIsQuiet(dispatched, t);
    ConnectAccounted(dispatched, t);
    QuietlyOn(d, dispatched, Connect(dispatched, t).0);
  }

  lemma TurnReplies(d: Driver, t: Turn)
    requires CallsAccounted(d)
    ensures RepliesByEvent(d, TurnOnce(d, t).0, AtEvent(d, t), t)
  {
    hide CallsAccounted, Quietly, RepliesByEvent, Connect, StartNextQueuedCall, Select, Finish, DispatchQueuedNotifications,
      FailAllNotificationWaiters;
    if t.stop {
      FinishIsQuiet(d);
      QuietRepliesNothing(d, Finish(d), None, t);
    } else {
      ConnectedIsQuiet(d, t);
      var numbered := d.(nextRequest := d.nextRequest + t.idsUsedElsewhere);
      var (ready, connected) := Connect(DispatchQueuedNotifications(numbered, t.listening), t);
      if connected.Err? {
        QuietRepliesNothing(d, ready, None, t);
      } else {
        var (started, done) := StartNextQueuedCall(ready, t);
        StartIsQuiet(ready, t);
        StartAccounted(ready, t);
        QuietlyOn(d, ready, started);
        if done.Err? {
          WaitersAreQuiet(started, done.error);
          StreamIsQuiet(started, FailAllNotificationWaiters(started, done.error), None);
          QuietlyOn(d, started, TurnOnce(d, t).0);
          QuietRepliesNothing(d, TurnOnce(d, t).0, None, t);
        } else {
          SelectReplies(started, t);
          QuietBefore(d, started, Select(started, t).0, Some(started), t);
        }
      }
    }
  }

  // ----- Runs -----

  ghost predicate AllArrived(d: Driver, turns: seq<Turn>, e: Driver) {
    && d.resolved <= e.resolved
    && forall k :: |d.resolved| <= k < |e.resolved| && e.resolved[k].outcome.Replied? ==>
         exists i :: 0 <= i < |turns| && ArrivedFrom(d, turns, e.resolved[k], k, i)
  }

  lemma FirstTurnArrived(d: Driver, turns: seq<Turn>)
    requires turns != [] && RepliesByEvent(d, TurnOnce(d, turns[0]).0, AtEvent(d, turns[0]), turns[0])
    ensures AllArrived(d, turns, TurnOnce(d, turns[0]).0)
  {
    hide TurnOnce, AtEvent, AnsweredBy;
    var e := TurnOnce(d, turns[0]).0;
    assert StateAt(d, turns, 0) == Some(d);
    forall k | |d.resolved| <= k < |e.resolved| && e.resolved[k].outcome.Replied?
      ensures exists i :: 0 <= i < |turns| && ArrivedFrom(d, turns, e.resolved[k], k, i)
    {
      assert ArrivedFrom(d, turns, e.resolved[k], k, 0);
    }
  }

  lemma LaterTurnsArrived(d: Driver, turns: seq<Turn>, e: Driver)
    requires turns != [] && TurnOnce(d, turns[0]).1
    requires AllArrived(d, turns, TurnOnce(d, turns[0]).0) && AllArrived(TurnOnce(d, turns[0]).0, turns[1..], e)
    ensures AllArrived(d, turns, e)
  {
    hide TurnOnce, AtEvent, AnsweredBy;
    var next := TurnOnce(d, turns[0]).0;
    forall k | |d.resolved| <= k < |e.resolved| && e.resolved[k].outcome.Replied?
      ensures exists i :: 0 <= i < |turns| && ArrivedFrom(d, turns, e.resolved[k], k, i)
    {
      if k < |next.resolved| {
        assert e.resolved[k] == next.resolved[k];
      } else {
        var i :| 0 <= i < |turns[1..]| && ArrivedFrom(next, turns[1..], e.resolved[k], k, i);
        assert StateAt(d, turns, i + 1) == StateAt(next, turns[1..], i) && turns[i + 1] == turns[1..][i];
        assert ArrivedFrom(d, turns, e.resolved[k], k, i + 1);
      }
    }
  }

  lemma {:induction false} RunReplies(d: Driver, turns: seq<Turn>)
    requires CallsAccounted(d)
    ensures AllArrived(d, turns, Run(d, turns))
    decreases turns
  {
    if turns != [] {
      hide CallsAccounted, TurnOnce, AllArrived, RepliesByEvent;
      TurnAccounted(d, turns[0]);
      TurnReplies(d, turns[0]);
      FirstTurnArrived(d, turns);
      var (next, goesOn) := TurnOnce(d, turns[0]);
      if goesOn {
        RunReplies(next, turns[1..]);
        LaterTurnsArrived(d, turns, Run(next, turns[1..]));
      }
    }
  }

  // ----- Main results -----

  /** Every reply is a frame that arrived on a live stream after the request was
      put on the wire and while it was the active one. */
  lemma RepliesArrived(turns: seq<Turn>)
    ensures var d := Run(IDLE, turns);
            forall k :: 0 <= k < |d.resolved| && d.resolved[k].outcome.Replied? ==>
              exists i :: 0 <= i < |turns| && ArrivedDuring(turns, d.resolved[k], k, i)
  {
    RunReplies(IDLE, turns);
    hide Run, ArrivedFrom;
    var d := Run(IDLE, turns);
    forall k | 0 <= k < |d.resolved| && d.resolved[k].outcome.Replied?
      ensures exists i :: 0 <= i < |turns| && ArrivedDuring(turns, d.resolved[k], k, i)
    {
      var i :| 0 <= i < |turns| && ArrivedFrom(IDLE, turns, d.resolved[k], k, i);
      assert ArrivedDuring(turns, d.resolved[k], k, i);
    }
  }

  /** Over every run of a new driver each accepted call is in exactly one of
      queued, active and resolved; it is resolved and put on the wire at most
      once; ids are never used again; and a reply is a frame that arrived on a
      live stream with the id of the call's own request, the active one. */
  lemma CallsOverEveryRun(turns: seq<Turn>)
    ensures var d := Run(IDLE, turns);
            && multiset(d.accepted) == QueuedCalls(d.queued) + ActiveCalls(d.active) + EndedCalls(d.resolved)
            && (d.active.Some? ==> d.stream.Some?)
            && (forall c :: c in multiset(d.accepted) && multiset(d.accepted)[c] == 1 ==>
                  QueuedCalls(d.queued)[c] + ActiveCalls(d.active)[c] + EndedCalls(d.resolved)[c] == 1
                  && WiredCalls(d.wire)[c] <= 1)
            && (forall k :: 0 <= k < |d.resolved| && d.resolved[k].outcome.Replied? ==>
                  exists i :: 0 <= i < |turns| && ArrivedDuring(turns, d.resolved[k], k, i))
            && (forall i, j :: 0 <= i < j < |d.wire| ==> d.wire[i].requestId < d.wire[j].requestId)
  {
    RunAccounted(IDLE, turns);
    RepliesArrived(turns);
    hide Run, ArrivedDuring;
    var d := Run(IDLE, turns);
    forall c | c in multiset(d.accepted) && multiset(d.accepted)[c] == 1
      ensures QueuedCalls(d.queued)[c] + ActiveCalls(d.active)[c] + EndedCalls(d.resolved)[c] == 1
      ensures WiredCalls(d.wire)[c] <= 1
    {
      assert (QueuedCalls(d.queued) + ActiveCalls(d.active) + EndedCalls(d.resolved))[c] == 1;
      assert WiredCalls(d.wire)[c] <= (ActiveCalls(d.active) + EndedCalls(d.resolved))[c];
    }
  }

  /** The converse: a frame that arrives with a successful response to the active
      request resolves its call with that payload, and any other frame with an id
      resolves it with an error. */
  lemma ArrivalResolves(d: Driver, t: Turn)
    requires AtEvent(d, t).Some? && t.event.Arrived? && t.event.frame.decoded.Ok? && t.event.frame.decoded.value.id.Some?
    requires AtEvent(d, t).value.stream.Some? && AtEvent(d, t).value.active.Some?
    ensures var before, frame := AtEvent(d, t).value, t.event.frame;
            var valid := ValidateResponse(frame, before.active.value.requestId, before.active.value.operation);
            && TurnOnce(d, t).0.resolved == before.resolved + [Resolution(before.active.value.call,
                 if valid.Ok? then Replied(valid.value, frame) else Failed(valid.error))]
            && TurnOnce(d, t).0.active.None?
  {
    TurnFromEvent(d, t);
    hide TurnOnce, AtEvent, FailAllNotificationWaiters;
    var handled, done := HandleReceivedFrame(AtEvent(d, t).value, t.event.frame, t.listening).0,
      HandleReceivedFrame(AtEvent(d, t).value, t.event.frame, t.listening).1;
    if done.Err? { WaitersSame(handled, done.error); }
  }
}
