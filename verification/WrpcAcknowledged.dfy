/** What the driver takes for an acknowledged subscription, told from the wire. */
module WrpcAcknowledged {
  import opened Common
  import opened WrpcTypes
  import opened WrpcDriver
  import opened WrpcCalls
  import opened WrpcSubscriptions
  import opened WrpcQuiet
  import opened WrpcReplies

  /** The request that was sent under an id. */
  function Lookup(wire: seq<Sent>, id: nat): Option<Sent> {
    if wire == [] then None
    else if wire[0].requestId == id then Some(wire[0])
    else Lookup(wire[1..], id)
  }

  /** The request that a reply answers. */
  function RequestOf(wire: seq<Sent>, r: Resolution): Option<Sent> {
    if r.outcome.Replied? && r.outcome.frame.decoded.Ok? && r.outcome.frame.decoded.value.id.Some?
    then Lookup(wire, r.outcome.frame.decoded.value.id.value)
    else None
  }

  function Acknowledgement(wire: seq<Sent>, r: Resolution): seq<seq<byte>> {
    var request := RequestOf(wire, r);
    if request.Some? && request.value.operation == Subscribe then [request.value.payload] else []
  }

  /** The payloads of the subscription requests that were answered successfully,
      in the order of the answers. */
  function Acknowledgements(wire: seq<Sent>, resolved: seq<Resolution>): seq<seq<byte>> {
    if resolved == [] then []
    else Acknowledgements(wire, resolved[..|resolved| - 1]) + Acknowledgement(wire, resolved[|resolved| - 1])
  }

  ghost predicate AcksKept(d: Driver) {
    d.acknowledged == Acknowledgements(d.wire, d.resolved)
  }

  // ----- Looking up a request -----

  lemma {:induction false} LookupFinds(wire: seq<Sent>, i: nat)
    requires i < |wire| && forall a, b :: 0 <= a < b < |wire| ==> wire[a].requestId < wire[b].requestId
    ensures Lookup(wire, wire[i].requestId) == Some(wire[i])
  {
    if i > 0 {
      assert wire[0].requestId < wire[i].requestId;
      LookupFinds(wire[1..], i - 1);
    }
  }

  lemma {:induction false} LookupStays(wire: seq<Sent>, more: seq<Sent>, id: nat)
    ensures Lookup(wire, id).Some? ==> Lookup(wire + more, id) == Lookup(wire, id)
  {
    if wire != [] {
      assert (wire + more)[0] == wire[0] && (wire + more)[1..] == wire[1..] + more;
      LookupStays(wire[1..], more, id);
    }
  }

  lemma ReplyIsFound(wire: seq<Sent>, r: Resolution)
    requires AnsweredOnWire(wire, r) && r.outcome.Replied?
    requires forall a, b :: 0 <= a < b < |wire| ==> wire[a].requestId < wire[b].requestId
    ensures RequestOf(wire, r).Some?
  {
    var i :| 0 <= i < |wire| && Answers(r.outcome.frame, wire[i], r.call, r.outcome.payload);
    LookupFinds(wire, i);
  }

  /** Later requests do not change what earlier replies acknowledged. */
  lemma {:induction false} LaterRequests(wire: seq<Sent>, more: seq<Sent>, resolved: seq<Resolution>)
    requires forall a, b :: 0 <= a < b < |wire| ==> wire[a].requestId < wire[b].requestId
    requires forall k :: 0 <= k < |resolved| ==> AnsweredOnWire(wire, resolved[k])
    ensures Acknowledgements(wire + more, resolved) == Acknowledgements(wire, resolved)
  {
    hide AnsweredOnWire, Lookup;
    if resolved != [] {
      var last := resolved[|resolved| - 1];
      LaterRequests(wire, more, resolved[..|resolved| - 1]);
      if last.outcome.Replied? {
        ReplyIsFound(wire, last);
        LookupStays(wire, more, last.outcome.frame.decoded.value.id.value);
      }
    }
  }

  lemma {:induction false} UnansweredCalls(wire: seq<Sent>, resolved: seq<Resolution>, more: seq<Resolution>)
    requires forall k :: 0 <= k < |more| ==> !more[k].outcome.Replied?
    ensures Acknowledgements(wire, resolved + more) == Acknowledgements(wire, resolved)
    decreases more
  {
    var all := resolved + more;
    if more == [] {
      assert all == resolved;
    } else {
      assert all[..|all| - 1] == resolved + more[..|more| - 1] && all[|all| - 1] == more[|more| - 1];
      UnansweredCalls(wire, resolved, more[..|more| - 1]);
      assert Acknowledgements(wire, resolved) + [] == Acknowledgements(wire, resolved);
    }
  }

  lemma QuietKeeps(d: Driver, e: Driver)
    requires CallsAccounted(d) && AcksKept(d) && Quietly(d, e)
    ensures AcksKept(e)
  {
    hide Ledger, AnsweredOnWire, Acknowledgements;
    var requests, calls := e.wire[|d.wire|..], e.resolved[|d.resolved|..];
    assert e.wire == d.wire + requests && e.resolved == d.resolved + calls;
    LaterRequests(d.wire, requests, d.resolved);
    UnansweredCalls(e.wire, d.resolved, calls);
  }

  // ----- The step that answers one -----

  lemma ActiveIsFound(d: Driver)
    requires CallsAccounted(d) && d.active.Some?
    ensures var a := d.active.value; Lookup(d.wire, a.requestId) == Some(Sent(a.requestId, a.operation, a.payload, Some(a.call)))
  {
    hide Ledger, RepliesAnswer;
    var a := d.active.value;
    var i :| 0 <= i < |d.wire| && d.wire[i] == Sent(a.requestId, a.operation, a.payload, Some(a.call));
    LookupFinds(d.wire, i);
  }

  lemma ReplyAcknowledges(d: Driver, frame: Frame, payload: seq<byte>)
    requires CallsAccounted(d) && AcksKept(d) && d.active.Some?
    requires frame.decoded.Ok? && frame.decoded.value.id == Some(d.active.value.requestId)
    ensures var a := d.active.value;
            Acknowledgements(d.wire, d.resolved + [Resolution(a.call, Replied(payload, frame))])
            == d.acknowledged + if a.operation == Subscribe then [a.payload] else []
  {
    hide CallsAccounted, Lookup;
    ActiveIsFound(d);
    var all := d.resolved + [Resolution(d.active.value.call, Replied(payload, frame))];
    assert all[..|all| - 1] == d.resolved;
  }

  lemma ResponseAcknowledges(d: Driver, frame: Frame, id: nat)
    requires CallsAccounted(d) && AcksKept(d)
    requires frame.decoded.Ok? && frame.decoded.value.id == Some(id)
    ensures AcksKept(HandleResponse(d, frame, id).0)
  {
    hide CallsAccounted, Quietly, Acknowledgements;
    if d.active.None? {
      NothingIsQuiet(d);
    } else {
      var active := d.active.value;
      var taken := d.(active := None);
      NothingIsQuiet(d);
      if id != active.requestId {
        TakenIsQuiet(d, Failed(MismatchedRequestId(active.requestId, id)));
        QuietKeeps(d, HandleResponse(d, frame, id).0);
      } else {
        var valid := ValidateResponse(frame, active.requestId, active.operation);
        if valid.Err? {
          TakenIsQuiet(d, Failed(valid.error));
          QuietKeeps(d, HandleResponse(d, frame, id).0);
        } else {
          ReplyAcknowledges(d, frame, valid.value);
          assert d.acknowledged + [] == d.acknowledged;
        }
      }
    }
  }

  // ----- Turns -----

  ghost predicate Accounted(d: Driver) {
    CallsAccounted(d) && AcksKept(d)
  }

  lemma FrameAcknowledges(d: Driver, frame: Frame, listening: set<WaiterId>)
    requires Accounted(d)
    ensures Accounted(HandleReceivedFrame(d, frame, listening).0)
  {
    hide CallsAccounted, AcksKept, Quietly, HandleResponse, QueueOrDeliver;
    if frame.decoded.Ok? {
      if frame.decoded.value.id.Some? {
        ResponseAccounted(d, frame, frame.decoded.value.id.value);
        ResponseAcknowledges(d, frame, frame.decoded.value.id.value);
      } else {
        QueueSame(d, frame, listening);
        SameCallsAccounted(d, QueueOrDeliver(d, frame, listening).0);
        SameIsQuiet(d, QueueOrDeliver(d, frame, listening).0);
        QuietKeeps(d, QueueOrDeliver(d, frame, listening).0);
      }
    }
  }

  lemma SelectAcknowledges(d: Driver, t: Turn)
    requires Accounted(d)
    ensures AcksKept(Select(d, t).0)
  {
    hide CallsAccounted, AcksKept, Quietly, HandleReceivedFrame, LoseStream, Finish;
    match t.event
    case Shutdown => FinishIsQuiet(d); QuietKeeps(d, Finish(d));
    case CommandsClosed => FinishIsQuiet(d); QuietKeeps(d, Finish(d));
    case Commanded(command) =>
      CommandIsQuiet(d, command, t.listening);
      QuietKeeps(d, HandleCommand(d, command, t.listening));
    case Arrived(frame) =>
      FrameAcknowledges(d, frame, t.listening);
      var (handled, done) := HandleReceivedFrame(d, frame, t.listening);
      if done.Err? {
        LoseIsQuiet(handled, done.error);
        QuietKeeps(handled, LoseStream(handled, done.error));
      }
    case Fault(error) => LoseIsQuiet(d, error); QuietKeeps(d, LoseStream(d, error));
    case Deadline => LoseIsQuiet(d, ResponseTimeout); QuietKeeps(d, LoseStream(d, ResponseTimeout));
  }

  lemma RestAcknowledges(d: Driver, t: Turn)
    requires Accounted(d)
    ensures AcksKept(Rest(d, t).0)
  {
    hide CallsAccounted, AcksKept, Quietly, Select, StartNextQueuedCall, FailAllNotificationWaiters;
    StartIsQuiet(d, t);
    StartAccounted(d, t);
    var (started, done) := StartNextQueuedCall(d, t);
    QuietKeeps(d, started);
    if done.Err? {
      WaitersAreQuiet(started, done.error);
      StreamIsQuiet(started, FailAllNotificationWaiters(started, done.error), None);
      QuietKeeps(started, Rest(d, t).0);
    } else {
      SelectAcknowledges(started, t);
    }
  }

  /** The beginning of a turn, up to a stream being there. */
  lemma ConnectAcknowledges(d: Driver, t: Turn)
    requires Accounted(d)
    ensures var numbered := d.(nextRequest := d.nextRequest + t.idsUsedElsewhere);
            Accounted(Connect(DispatchQueuedNotifications(numbered, t.listening), t).0)
  {
    hide CallsAccounted, AcksKept, Quietly, Connect, DispatchQueuedNotifications;
    var numbered := d.(nextRequest := d.nextRequest + t.idsUsedElsewhere);
    var dispatched := DispatchQueuedNotifications(numbered, t.listening);
    NumberedIsQuiet(d, t.idsUsedElsewhere);
    NextIdAccounted(d, t.idsUsedElsewhere);
    QuietKeeps(d, numbered);
    DispatchSame(numbered, t.listening);
    hide SameCalls;
    SameCallsAccounted(numbered, dispatched);
    SameIsQuiet(numbered, dispatched);
    QuietKeeps(numbered, dispatched);
    ConnectIsQuiet(dispatched, t);
    ConnectAccounted(dispatched, t);
    QuietKeeps(dispatched, Connect(dispatched, t).0);
  }

  lemma TurnAcknowledges(d: Driver, t: Turn)
    requires Accounted(d)
    ensures Accounted(TurnOnce(d, t).0)
  {
    hide CallsAccounted, AcksKept, Quietly, Connect, Rest, Finish, DispatchQueuedNotifications;
    TurnAccounted(d, t);
    if t.stop {
      FinishIsQuiet(d);
      QuietKeeps(d, Finish(d));
    } else {
      ConnectAcknowledges(d, t);
      var numbered := d.(nextRequest := d.nextRequest + t.idsUsedElsewhere);
      RestAcknowledges(Connect(DispatchQueuedNotifications(numbered, t.listening), t).0, t);
    }
  }

  lemma {:induction false} RunAcknowledges(d: Driver, turns: seq<Turn>)
    requires Accounted(d)
    ensures Accounted(Run(d, turns))
    decreases turns
  {
    hide Accounted, TurnOnce;
    if turns != [] {
      TurnAcknowledges(d, turns[0]);
      RunAcknowledges(TurnOnce(d, turns[0]).0, turns[1..]);
    }
  }

  /** Over every run what the driver remembers are the distinct payloads of the
      subscription requests on the wire that were answered successfully, in the
      order of the first answers; and each of the answers is a frame that arrived
      while its request was the active one. */
  lemma RememberedAreAnswered(turns: seq<Turn>)
    ensures var d := Run(IDLE, turns);
            && d.subscriptions == FirstOccurrences(Acknowledgements(d.wire, d.resolved))
            && (forall k :: 0 <= k < |d.resolved| && Acknowledgement(d.wire, d.resolved[k]) != [] ==>
                  exists i :: 0 <= i < |turns| && ArrivedDuring(turns, d.resolved[k], k, i))
  {
    assert Accounted(IDLE);
    RunAcknowledges(IDLE, turns);
    SubscriptionsOverEveryRun(turns);
    RepliesArrived(turns);
    hide Run;
  }
}
