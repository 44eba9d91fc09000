/** What every run of the driver keeps about calls. */
module WrpcCalls {
  import opened Common
  import opened WrpcTypes
  import opened WrpcDriver

  // ----- Where calls are -----

  function QueuedCalls(queued: seq<QueuedCall>): multiset<CallId> {
    if queued == [] then multiset{} else multiset{queued[0].call} + QueuedCalls(queued[1..])
  }

  function ActiveCalls(active: Option<ActiveCall>): multiset<CallId> {
    match active case None => multiset{} case Some(a) => multiset{a.call}
  }

  function EndedCalls(resolved: seq<Resolution>): multiset<CallId> {
    if resolved == [] then multiset{}
    else EndedCalls(resolved[..|resolved| - 1]) + multiset{resolved[|resolved| - 1].call}
  }

  /** The calls put on the wire, as often as they were. */
  function WiredCalls(wire: seq<Sent>): multiset<CallId> {
    if wire == [] then multiset{}
    else
      var last := wire[|wire| - 1].call;
      WiredCalls(wire[..|wire| - 1]) + if last.Some? then multiset{last.value} else multiset{}
  }

  lemma {:induction false} QueuedAppend(queued: seq<QueuedCall>, call: QueuedCall)
    ensures QueuedCalls(queued + [call]) == QueuedCalls(queued) + multiset{call.call}
  {
    var all := queued + [call];
    if queued == [] {
      assert all[1..] == [];
    } else {
      QueuedAppend(queued[1..], call);
      assert all[1..] == queued[1..] + [call] && all[0] == queued[0];
    }
  }

  lemma EndedAppend(resolved: seq<Resolution>, r: Resolution)
    ensures EndedCalls(resolved + [r]) == EndedCalls(resolved) + multiset{r.call}
  {
    assert (resolved + [r])[..|resolved|] == resolved;
  }

  lemma WiredAppend(wire: seq<Sent>, s: Sent)
    ensures WiredCalls(wire + [s]) == WiredCalls(wire) + if s.call.Some? then multiset{s.call.value} else multiset{}
  {
    assert (wire + [s])[..|wire|] == wire;
  }

  // ----- The invariant -----

  /** The frame is a successful response to `sent`, with this payload. */
  predicate Answers(frame: Frame, sent: Sent, call: CallId, payload: seq<byte>) {
    && sent.call == Some(call)
    && frame.decoded.Ok? && frame.decoded.value.id == Some(sent.requestId)
    && frame.decoded.value.kind.Success? && frame.decoded.value.payload == payload
  }

  predicate AnsweredOnWire(wire: seq<Sent>, r: Resolution) {
    r.outcome.Replied? ==> exists i :: 0 <= i < |wire| && Answers(r.outcome.frame, wire[i], r.call, r.outcome.payload)
  }

  predicate ActiveOnWire(wire: seq<Sent>, a: ActiveCall) {
    Sent(a.requestId, a.operation, a.payload, Some(a.call)) in wire
  }

  /** Every accepted call is queued, active or resolved, and only in one way;
      whatever was put on the wire is no longer queued. */
  ghost predicate Ledger(d: Driver) {
    && multiset(d.accepted) == QueuedCalls(d.queued) + ActiveCalls(d.active) + EndedCalls(d.resolved)
    && WiredCalls(d.wire) <= ActiveCalls(d.active) + EndedCalls(d.resolved)
  }

  /** An active call has a live stream, on whose wire it is; request ids are
      never used twice. */
  ghost predicate WireInOrder(d: Driver) {
    && (d.active.Some? ==> d.stream.Some? && ActiveOnWire(d.wire, d.active.value))
    && (forall i :: 0 <= i < |d.wire| ==> d.wire[i].requestId < d.nextRequest)
    && (forall i, j :: 0 <= i < j < |d.wire| ==> d.wire[i].requestId < d.wire[j].requestId)
  }

  /** A reply answers a request of its own call. */
  ghost predicate RepliesAnswer(d: Driver) {
    forall k :: 0 <= k < |d.resolved| ==> AnsweredOnWire(d.wire, d.resolved[k])
  }

  ghost predicate CallsAccounted(d: Driver) {
    Ledger(d) && WireInOrder(d) && RepliesAnswer(d)
  }

  // ----- Moving a call -----

  lemma QueuedToEnded(all: multiset<CallId>, q: multiset<CallId>, a: multiset<CallId>, e: multiset<CallId>, w: multiset<CallId>, c: CallId)
    requires all == multiset{c} + q + a + e && w <= a + e
    ensures all == q + a + (e + multiset{c}) && w <= a + (e + multiset{c}) && w + multiset{c} <= a + (e + multiset{c})
  {
  }

  lemma QueuedToActive(all: multiset<CallId>, q: multiset<CallId>, a: multiset<CallId>, e: multiset<CallId>, w: multiset<CallId>, c: CallId)
    requires a == multiset{} && all == multiset{c} + q + a + e && w <= a + e
    ensures all == q + multiset{c} + e && w + multiset{c} <= multiset{c} + e
  {
  }

  lemma ActiveToEnded(all: multiset<CallId>, q: multiset<CallId>, e: multiset<CallId>, w: multiset<CallId>, c: CallId)
    requires all == q + multiset{c} + e && w <= multiset{c} + e
    ensures all == q + multiset{} + (e + multiset{c}) && w <= multiset{} + (e + multiset{c})
  {
  }

  lemma NewToQueued(all: multiset<CallId>, q: multiset<CallId>, a: multiset<CallId>, e: multiset<CallId>, c: CallId)
    requires all == q + a + e
    ensures all + multiset{c} == (q + multiset{c}) + a + e
  {
  }

  /** Nothing about calls differs. */
  predicate SameCalls(d: Driver, e: Driver) {
    && d.accepted == e.accepted && d.queued == e.queued && d.active == e.active && d.resolved == e.resolved
    && d.wire == e.wire && d.stream == e.stream && d.nextRequest == e.nextRequest
  }

  lemma SameCallsAccounted(d: Driver, e: Driver)
    requires CallsAccounted(d) && SameCalls(d, e)
    ensures CallsAccounted(e)
  {
  }

  // ----- Steps that do not touch calls -----

  lemma {:induction false} OfferSame(d: Driver, frame: Frame, listening: set<WaiterId>)
    ensures SameCalls(d, Offer(d, frame, listening).0)
    ensures Offer(d, frame, listening).0.subscriptions == d.subscriptions
    ensures Offer(d, frame, listening).0.acknowledged == d.acknowledged
    decreases |d.waiters|
  {
    if d.waiters != [] && d.waiters[0] !in listening {
      OfferSame(d.(waiters := d.waiters[1..], waitersGone := d.waitersGone + [d.waiters[0]]), frame, listening);
    }
  }

  lemma {:induction false} DispatchSame(d: Driver, listening: set<WaiterId>)
    ensures SameCalls(d, DispatchQueuedNotifications(d, listening))
    ensures DispatchQueuedNotifications(d, listening).subscriptions == d.subscriptions
    ensures DispatchQueuedNotifications(d, listening).acknowledged == d.acknowledged
    decreases |d.notifications|
  {
    if d.notifications != [] && d.waiters != [] {
      OfferSame(d, d.notifications[0], listening);
      var (offered, taken) := Offer(d, d.notifications[0], listening);
      if taken { DispatchSame(offered.(notifications := d.notifications[1..]), listening); }
    }
  }

  lemma QueueSame(d: Driver, frame: Frame, listening: set<WaiterId>)
    ensures var e := QueueOrDeliver(d, frame, listening).0;
            SameCalls(d, e) && e.subscriptions == d.subscriptions && e.acknowledged == d.acknowledged
  {
    OfferSame(d, frame, listening);
  }

  lemma {:induction false} AwaitSame(d: Driver, requestId: nat, frames: seq<Frame>, fault: NetworkError, listening: set<WaiterId>)
    ensures var e := AwaitReplay(d, requestId, frames, fault, listening).0;
            SameCalls(d, e) && e.subscriptions == d.subscriptions && e.acknowledged == d.acknowledged
    decreases frames
  {
    hide QueueOrDeliver;
    if frames != [] {
      QueueSame(d, frames[0], listening);
      AwaitSame(QueueOrDeliver(d, frames[0], listening).0, requestId, frames[1..], fault, listening);
    }
  }

  lemma {:induction false} WaitersSame(d: Driver, error: NetworkError)
    ensures var e := FailAllNotificationWaiters(d, error);
            SameCalls(d, e) && e.subscriptions == d.subscriptions && e.acknowledged == d.acknowledged && e.waiters == []
    decreases |d.waiters|
  {
    if d.waiters != [] {
      WaitersSame(d.(waiters := d.waiters[1..], waitersFailed := d.waitersFailed + [(d.waiters[0], error)]), error);
    }
  }

  // ----- Steps that do -----

  /** Ending the active call. */
  lemma EndActive(d: Driver, outcome: Outcome)
    requires CallsAccounted(d) && d.active.Some?
    requires AnsweredOnWire(d.wire, Resolution(d.active.value.call, outcome))
    ensures CallsAccounted(Resolve(d.(active := None), d.active.value.call, outcome))
  {
    hide QueuedCalls, EndedCalls, WiredCalls, AnsweredOnWire;
    var c := d.active.value.call;
    EndedAppend(d.resolved, Resolution(c, outcome));
    ActiveToEnded(multiset(d.accepted), QueuedCalls(d.queued), EndedCalls(d.resolved), WiredCalls(d.wire), c);
  }

  lemma FailActiveAccounted(d: Driver, error: NetworkError)
    requires CallsAccounted(d)
    ensures var e := FailActiveCall(d, error); CallsAccounted(e) && e.active.None? && e.stream == d.stream && e.queued == d.queued
  {
    if d.active.Some? { EndActive(d, Failed(error)); }
  }

  lemma QueuedCons(queued: seq<QueuedCall>)
    requires queued != []
    ensures QueuedCalls(queued) == multiset{queued[0].call} + QueuedCalls(queued[1..])
  {
  }

  /** Ending the first queued call without a reply. */
  lemma EndQueued(d: Driver, outcome: Outcome)
    requires CallsAccounted(d) && d.queued != [] && !outcome.Replied?
    ensures CallsAccounted(Resolve(d.(queued := d.queued[1..]), d.queued[0].call, outcome))
  {
    hide QueuedCalls, EndedCalls, WiredCalls;
    var c := d.queued[0].call;
    QueuedCons(d.queued);
    EndedAppend(d.resolved, Resolution(c, outcome));
    QueuedToEnded(multiset(d.accepted), QueuedCalls(d.queued[1..]), ActiveCalls(d.active), EndedCalls(d.resolved), WiredCalls(d.wire), c);
  }

  lemma {:induction false} FailQueuedAccounted(d: Driver, error: NetworkError)
    requires CallsAccounted(d)
    ensures var e := FailAllQueuedCalls(d, error);
            CallsAccounted(e) && e.queued == [] && e.active == d.active && e.stream == d.stream && e.waiters == d.waiters
    decreases |d.queued|
  {
    hide CallsAccounted;
    if d.queued != [] {
      EndQueued(d, Failed(error));
      FailQueuedAccounted(Resolve(d.(queued := d.queued[1..]), d.queued[0].call, Failed(error)), error);
    }
  }

  lemma CommandAccounted(d: Driver, command: Command, listening: set<WaiterId>)
    requires CallsAccounted(d)
    ensures CallsAccounted(HandleCommand(d, command, listening))
  {
    hide QueuedCalls, EndedCalls, WiredCalls, AnsweredOnWire;
    if command.Call? {
      QueuedAppend(d.queued, QueuedCall(command.call, command.operation, command.payload));
      NewToQueued(multiset(d.accepted), QueuedCalls(d.queued), ActiveCalls(d.active), EndedCalls(d.resolved), command.call);
      assert multiset(d.accepted + [command.call]) == multiset(d.accepted) + multiset{command.call};
    }
  }

  /** One more request on the wire, under the next request id. */
  lemma PutAccounted(d: Driver, stream: Stream, sent: Sent)
    requires CallsAccounted(d) && sent.requestId == d.nextRequest && sent.call.None?
    ensures CallsAccounted(Put(d.(nextRequest := d.nextRequest + 1), stream, sent).0)
  {
    hide QueuedCalls, EndedCalls, WiredCalls, AnsweredOnWire;
    WiredAppend(d.wire, sent);
    AnswersStay(d.wire, sent, d.resolved);
  }

  lemma AnswersStay(wire: seq<Sent>, sent: Sent, resolved: seq<Resolution>)
    requires forall k :: 0 <= k < |resolved| ==> AnsweredOnWire(wire, resolved[k])
    ensures forall k :: 0 <= k < |resolved| ==> AnsweredOnWire(wire + [sent], resolved[k])
  {
    forall k | 0 <= k < |resolved| ensures AnsweredOnWire(wire + [sent], resolved[k]) {
      var r := resolved[k];
      if r.outcome.Replied? {
        var i :| 0 <= i < |wire| && Answers(r.outcome.frame, wire[i], r.call, r.outcome.payload);
        assert (wire + [sent])[i] == wire[i];
      }
    }
  }

  /** Nothing about calls differs but the requests on the wire. */
  predicate SameButWire(d: Driver, e: Driver) {
    d.accepted == e.accepted && d.queued == e.queued && d.active == e.active && d.stream == e.stream
  }

  lemma ReplayOneAccounted(d: Driver, stream: Stream, payload: seq<byte>, replay: Replay, listening: set<WaiterId>)
    requires CallsAccounted(d)
    ensures var e := ReplayOne(d, stream, payload, replay, listening).0; CallsAccounted(e) && SameButWire(d, e)
  {
    hide CallsAccounted, AwaitReplay;
    NextIdAccounted(d, 1);
    var sent := Sent(d.nextRequest, Subscribe, payload, None);
    var (put, _) := Put(d.(nextRequest := d.nextRequest + 1), stream, sent);
    PutAccounted(d, stream, sent);
    AwaitSame(put, d.nextRequest, replay.frames, replay.fault, listening);
    SameCallsAccounted(put, AwaitReplay(put, d.nextRequest, replay.frames, replay.fault, listening).0);
  }

  lemma {:induction false} ReplayAccounted(d: Driver, stream: Stream, payloads: seq<seq<byte>>, replays: seq<Replay>, listening: set<WaiterId>)
    requires CallsAccounted(d)
    ensures var e := ReplaySubscriptions(d, stream, payloads, replays, listening).0; CallsAccounted(e) && SameButWire(d, e)
    decreases payloads
  {
    hide CallsAccounted, ReplayOne;
    if payloads != [] {
      var replay := if replays == [] then NO_REPLAY else replays[0];
      ReplayOneAccounted(d, stream, payloads[0], replay, listening);
      var (next, made) := ReplayOne(d, stream, payloads[0], replay, listening);
      if made.Ok? {
        ReplayAccounted(next, made.value, payloads[1..], if replays == [] then [] else replays[1..], listening);
      }
    }
  }

  lemma NextIdAccounted(d: Driver, n: nat)
    requires CallsAccounted(d)
    ensures CallsAccounted(d.(nextRequest := d.nextRequest + n))
  {
  }

  lemma StreamAccounted(d: Driver, stream: Option<Stream>)
    requires CallsAccounted(d) && (d.active.Some? ==> stream.Some?)
    ensures CallsAccounted(d.(stream := stream))
  {
  }

  /** The first queued call goes on the wire and becomes active. */
  lemma SendAccounted(d: Driver, stream: Stream)
    requires CallsAccounted(d) && d.queued != [] && d.active.None?
    ensures var call, id := d.queued[0], d.nextRequest;
            var sent := Sent(id, call.operation, call.payload, Some(call.call));
            CallsAccounted(d.(queued := d.queued[1..], nextRequest := id + 1, wire := d.wire + [sent], stream := Some(stream),
                              active := Some(ActiveCall(id, call.call, call.operation, call.payload))))
  {
    hide QueuedCalls, EndedCalls, WiredCalls, AnsweredOnWire;
    var call := d.queued[0];
    var sent := Sent(d.nextRequest, call.operation, call.payload, Some(call.call));
    QueuedCons(d.queued);
    WiredAppend(d.wire, sent);
    AnswersStay(d.wire, sent, d.resolved);
    QueuedToActive(multiset(d.accepted), QueuedCalls(d.queued[1..]), ActiveCalls(d.active), EndedCalls(d.resolved), WiredCalls(d.wire), call.call);
    assert (d.wire + [sent])[|d.wire|] == sent;
  }

  /** The state once the first queued call is on the wire. */
  function Started(d: Driver): Driver
    requires d.queued != [] && d.stream.Some?
  {
    var call, id := d.queued[0], d.nextRequest;
    var sent := Sent(id, call.operation, call.payload, Some(call.call));
    d.(queued := d.queued[1..], nextRequest := id + 1, wire := d.wire + [sent],
       stream := Some(d.stream.value.(sent := d.stream.value.sent + [sent])),
       active := Some(ActiveCall(id, call.call, call.operation, call.payload)))
  }

  /** What starting a call comes to, case by case. */
  lemma StartCases(d: Driver, t: Turn)
    requires d.active.None? && d.stream.Some? && d.queued != []
    ensures var (e, done) := StartNextQueuedCall(d, t);
            var call := d.queued[0].call;
            && (!t.encoded ==>
                done.Err?
                && e == Resolve(d.(nextRequest := d.nextRequest + 1, queued := d.queued[1..]), call, Dropped))
            && (t.encoded && !t.sent ==>
                done.Err? && e == Resolve(Started(d).(active := None), call, Failed(SendFailed)))
            && (t.encoded && t.sent ==> done.Ok? && e == Started(d))
  {
  }

  lemma StartIdle(d: Driver, t: Turn)
    requires d.active.Some? || d.stream.None? || d.queued == []
    ensures StartNextQueuedCall(d, t).0 == d && StartNextQueuedCall(d, t).1.Ok?
  {
  }

  lemma StartAccounted(d: Driver, t: Turn)
    requires CallsAccounted(d)
    ensures var (e, done) := StartNextQueuedCall(d, t);
            CallsAccounted(e) && (done.Err? ==> e.active.None?)
  {
    hide CallsAccounted, StartNextQueuedCall;
    if d.active.Some? || d.stream.None? || d.queued == [] {
      StartIdle(d, t);
    } else {
      StartCases(d, t);
      if !t.encoded {
        NextIdAccounted(d, 1);
        EndQueued(d.(nextRequest := d.nextRequest + 1), Dropped);
      } else {
        var sent := Sent(d.nextRequest, d.queued[0].operation, d.queued[0].payload, Some(d.queued[0].call));
        SendAccounted(d, d.stream.value.(sent := d.stream.value.sent + [sent]));
        if !t.sent { EndActive(Started(d), Failed(SendFailed)); }
      }
    }
  }

  lemma ActiveAnswered(d: Driver, frame: Frame, payload: seq<byte>)
    requires CallsAccounted(d) && d.active.Some?
    requires frame.decoded.Ok? && frame.decoded.value.id == Some(d.active.value.requestId)
    requires frame.decoded.value.kind.Success? && frame.decoded.value.payload == payload
    ensures AnsweredOnWire(d.wire, Resolution(d.active.value.call, Replied(payload, frame)))
  {
    var active := d.active.value;
    var i :| 0 <= i < |d.wire| && d.wire[i] == Sent(active.requestId, active.operation, active.payload, Some(active.call));
    assert Answers(frame, d.wire[i], active.call, payload);
  }

  lemma ResponseAccounted(d: Driver, frame: Frame, id: nat)
    requires CallsAccounted(d) && frame.decoded.Ok? && frame.decoded.value.id == Some(id)
    ensures CallsAccounted(HandleResponse(d, frame, id).0)
  {
    hide CallsAccounted;
    if d.active.Some? {
      var active := d.active.value;
      if id != active.requestId {
        EndActive(d, Failed(MismatchedRequestId(active.requestId, id)));
      } else {
        var valid := ValidateResponse(frame, active.requestId, active.operation);
        if valid.Err? {
          EndActive(d, Failed(valid.error));
        } else {
          ActiveAnswered(d, frame, valid.value);
          EndActive(d, Replied(valid.value, frame));
          SameCallsAccounted(Resolve(d.(active := None), active.call, Replied(valid.value, frame)), HandleResponse(d, frame, id).0);
        }
      }
    }
  }

  lemma LoseAccounted(d: Driver, error: NetworkError)
    requires CallsAccounted(d)
    ensures CallsAccounted(LoseStream(d, error))
  {
    hide CallsAccounted, FailAllNotificationWaiters;
    FailActiveAccounted(d, error);
    var failed := FailActiveCall(d, error);
    WaitersSame(failed, error);
    var told := FailAllNotificationWaiters(failed, error);
    SameCallsAccounted(failed, told);
    StreamAccounted(told, None);
  }

  /** A stopped driver has resolved every call it accepted. */
  lemma FinishAccounted(d: Driver)
    requires CallsAccounted(d)
    ensures CallsAccounted(Finish(d))
  {
    hide CallsAccounted, FailAllNotificationWaiters, FailAllQueuedCalls;
    FailActiveAccounted(d, ConnectionFailed);
    var idle := FailActiveCall(d, ConnectionFailed);
    FailQueuedAccounted(idle, ConnectionFailed);
    var empty := FailAllQueuedCalls(idle, ConnectionFailed);
    WaitersSame(empty, ConnectionFailed);
    SameCallsAccounted(empty, Finish(d));
  }

  lemma SelectAccounted(d: Driver, t: Turn)
    requires CallsAccounted(d)
    ensures CallsAccounted(Select(d, t).0)
  {
    hide CallsAccounted, HandleResponse, QueueOrDeliver, LoseStream, Finish, HandleCommand;
    match t.event
    case Shutdown => FinishAccounted(d);
    case CommandsClosed => FinishAccounted(d);
    case Commanded(command) => CommandAccounted(d, command, t.listening);
    case Arrived(frame) =>
      if frame.decoded.Ok? {
        if frame.decoded.value.id.Some? {
          ResponseAccounted(d, frame, frame.decoded.value.id.value);
        } else {
          QueueSame(d, frame, t.listening);
          SameCallsAccounted(d, QueueOrDeliver(d, frame, t.listening).0);
        }
      }
      var (handled, done) := HandleReceivedFrame(d, frame, t.listening);
      if done.Err? { LoseAccounted(handled, done.error); }
    case Fault(error) => LoseAccounted(d, error);
    case Deadline => LoseAccounted(d, ResponseTimeout);
  }

  lemma EstablishAccounted(d: Driver, t: Turn)
    requires CallsAccounted(d)
    ensures var e := EstablishStream(d, t).0;
            CallsAccounted(e) && e.active == d.active && e.stream == d.stream
  {
    if t.connected.Ok? { ReplayAccounted(d, Stream([], 0), d.subscriptions, t.replays, t.listening); }
  }

  lemma ConnectAccounted(d: Driver, t: Turn)
    requires CallsAccounted(d)
    ensures CallsAccounted(Connect(d, t).0)
  {
    hide CallsAccounted, EstablishStream, FailAllQueuedCalls, FailAllNotificationWaiters;
    if ShouldEstablish(d) {
      EstablishAccounted(d, t);
      var (e, made) := EstablishStream(d, t);
      if made.Err? {
        FailQueuedAccounted(e, made.error);
        var empty := FailAllQueuedCalls(e, made.error);
        WaitersSame(empty, made.error);
        SameCallsAccounted(empty, FailAllNotificationWaiters(empty, made.error));
      } else {
        StreamAccounted(e, Some(made.value));
      }
    }
  }

  lemma RestAccounted(d: Driver, t: Turn)
    requires CallsAccounted(d)
    ensures CallsAccounted(Rest(d, t).0)
  {
    hide CallsAccounted, Select, StartNextQueuedCall, FailAllNotificationWaiters;
    StartAccounted(d, t);
    var (started, done) := StartNextQueuedCall(d, t);
    if done.Err? {
      WaitersSame(started, done.error);
      var told := FailAllNotificationWaiters(started, done.error);
      SameCallsAccounted(started, told);
      StreamAccounted(told, None);
    } else {
      SelectAccounted(started, t);
    }
  }

  lemma TurnAccounted(d: Driver, t: Turn)
    requires CallsAccounted(d)
    ensures CallsAccounted(TurnOnce(d, t).0)
  {
    hide CallsAccounted, Connect, Rest, Finish, DispatchQueuedNotifications;
    if t.stop {
      FinishAccounted(d);
    } else {
      var numbered := d.(nextRequest := d.nextRequest + t.idsUsedElsewhere);
      NextIdAccounted(d, t.idsUsedElsewhere);
      DispatchSame(numbered, t.listening);
      var dispatched := DispatchQueuedNotifications(numbered, t.listening);
      SameCallsAccounted(numbered, dispatched);
      ConnectAccounted(dispatched, t);
      RestAccounted(Connect(dispatched, t).0, t);
    }
  }

  lemma IdleAccounted()
    ensures CallsAccounted(IDLE)
  {
  }

  lemma {:induction false} RunAccounted(d: Driver, turns: seq<Turn>)
    requires CallsAccounted(d)
    ensures CallsAccounted(Run(d, turns))
    decreases turns
  {
    hide CallsAccounted, TurnOnce;
    if turns != [] {
      TurnAccounted(d, turns[0]);
      RunAccounted(TurnOnce(d, turns[0]).0, turns[1..]);
    }
  }

  // ----- When the driver stops -----

  /** Whether the last turn of a run stopped the driver. */
  predicate Stopped(d: Driver, turns: seq<Turn>)
    decreases turns
  {
    turns != [] && (!TurnOnce(d, turns[0]).1 || Stopped(TurnOnce(d, turns[0]).0, turns[1..]))
  }

  /** A driver that stopped has resolved every call it ever accepted. */
  lemma {:induction false} StoppedResolvesAll(d: Driver, turns: seq<Turn>)
    requires CallsAccounted(d) && Stopped(d, turns)
    ensures var e := Run(d, turns); multiset(e.accepted) == EndedCalls(e.resolved) && e.waiters == []
    decreases turns
  {
    TurnAccounted(d, turns[0]);
    if TurnOnce(d, turns[0]).1 {
      StoppedResolvesAll(TurnOnce(d, turns[0]).0, turns[1..]);
    } else {
      StoppingTurnFinishes(d, turns[0]);
    }
  }

  lemma SelectStops(d: Driver, t: Turn)
    requires !Select(d, t).1
    ensures Select(d, t).0 == Finish(d)
  {
  }

  lemma {:induction false} FailQueuedClears(d: Driver, error: NetworkError)
    ensures FailAllQueuedCalls(d, error).queued == [] && FailAllQueuedCalls(d, error).active == d.active
    decreases |d.queued|
  {
    if d.queued != [] {
      FailQueuedClears(Resolve(d.(queued := d.queued[1..]), d.queued[0].call, Failed(error)), error);
    }
  }

  lemma FinishClears(d: Driver)
    ensures var e := Finish(d); e.queued == [] && e.active.None? && e.waiters == []
  {
    hide FailAllQueuedCalls, FailAllNotificationWaiters;
    var idle := FailActiveCall(d, ConnectionFailed);
    FailQueuedClears(idle, ConnectionFailed);
    WaitersSame(FailAllQueuedCalls(idle, ConnectionFailed), ConnectionFailed);
  }

  lemma StoppingTurnFinishes(d: Driver, t: Turn)
    requires !TurnOnce(d, t).1
    ensures var e := TurnOnce(d, t).0; e.queued == [] && e.active.None? && e.waiters == []
  {
    hide Finish, Connect, StartNextQueuedCall, DispatchQueuedNotifications, FailAllNotificationWaiters, Select;
    if t.stop {
      FinishClears(d);
    } else {
      var dispatched := DispatchQueuedNotifications(d.(nextRequest := d.nextRequest + t.idsUsedElsewhere), t.listening);
      var started := StartNextQueuedCall(Connect(dispatched, t).0, t).0;
      SelectStops(started, t);
      FinishClears(started);
    }
  }
}
