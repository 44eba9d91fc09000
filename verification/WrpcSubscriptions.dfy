/** What every run of the driver keeps about subscriptions and the streams they
    are replayed on. */
module WrpcSubscriptions {
  import opened Common
  import opened WrpcTypes
  import opened WrpcDriver
  import opened WrpcCalls

  /** Each payload once, in the order of its first success. */
  function FirstOccurrences(payloads: seq<seq<byte>>): (firsts: seq<seq<byte>>) {
    if payloads == [] then []
    else
      var before, last := FirstOccurrences(payloads[..|payloads| - 1]), payloads[|payloads| - 1];
      if last in before then before else before + [last]
  }

  predicate Distinct(s: seq<seq<byte>>) {
    forall i, j :: 0 <= i < j < |s| ==> s[i] != s[j]
  }

  lemma {:induction false} FirstOccurrencesAreASet(payloads: seq<seq<byte>>)
    ensures Distinct(FirstOccurrences(payloads))
    ensures forall p :: p in FirstOccurrences(payloads) <==> p in payloads
  {
    if payloads != [] {
      var before, last := payloads[..|payloads| - 1], payloads[|payloads| - 1];
      FirstOccurrencesAreASet(before);
      assert payloads == before + [last];
    }
  }

  /** Two payloads stand in the order of their first successes. */
  lemma {:induction false} FirstOccurrencesInOrder(payloads: seq<seq<byte>>, n: nat)
    requires n <= |payloads|
    ensures FirstOccurrences(payloads[..n]) <= FirstOccurrences(payloads)
    decreases |payloads|
  {
    if n < |payloads| {
      var before := payloads[..|payloads| - 1];
      FirstOccurrencesInOrder(before, n);
      assert before[..n] == payloads[..n];
    } else {
      assert payloads[..n] == payloads;
    }
  }

  // ----- Replay -----

  /** What was sent is the replay of these payloads, in order. */
  predicate ReplayOf(sent: seq<Sent>, payloads: seq<seq<byte>>) {
    |sent| == |payloads| && forall i :: 0 <= i < |sent| ==>
      sent[i].operation == Subscribe && sent[i].payload == payloads[i] && sent[i].call.None?
  }

  predicate Acknowledges(frames: seq<Frame>, requestId: nat) {
    exists k :: 0 <= k < |frames| && ValidateResponse(frames[k], requestId, Subscribe).Ok?
  }

  /** Each replayed request was acknowledged before the next was sent. */
  predicate AllAcknowledged(sent: seq<Sent>, replays: seq<Replay>) {
    |sent| <= |replays| && forall i :: 0 <= i < |sent| ==> Acknowledges(replays[i].frames, sent[i].requestId)
  }

  lemma {:induction false} AwaitEndsOnAcknowledgement(d: Driver, requestId: nat, frames: seq<Frame>, fault: NetworkError, listening: set<WaiterId>)
    requires AwaitReplay(d, requestId, frames, fault, listening).1.Ok?
    ensures Acknowledges(frames, requestId)
    decreases frames
  {
    hide QueueOrDeliver, ValidateResponse;
    assert frames != [];
    var decoded := frames[0].decoded.value;
    if decoded.id.None? {
      var queued := QueueOrDeliver(d, frames[0], listening).0;
      AwaitEndsOnAcknowledgement(queued, requestId, frames[1..], fault, listening);
      var k :| 0 <= k < |frames[1..]| && ValidateResponse(frames[1..][k], requestId, Subscribe).Ok?;
      assert frames[k + 1] == frames[1..][k];
    } else {
      assert ValidateResponse(frames[0], requestId, Subscribe).Ok?;
    }
  }

  lemma ReplayOneIsExact(d: Driver, stream: Stream, payload: seq<byte>, replay: Replay, listening: set<WaiterId>)
    requires ReplayOne(d, stream, payload, replay, listening).1.Ok?
    ensures var made := ReplayOne(d, stream, payload, replay, listening).1.value;
            && made == Stream(stream.sent + [Sent(d.nextRequest, Subscribe, payload, None)], stream.replayed + 1)
            && Acknowledges(replay.frames, d.nextRequest)
  {
    hide AwaitReplay, Acknowledges;
    var (put, grown) := Put(d.(nextRequest := d.nextRequest + 1), stream, Sent(d.nextRequest, Subscribe, payload, None));
    AwaitEndsOnAcknowledgement(put, d.nextRequest, replay.frames, replay.fault, listening);
  }

  lemma {:induction false} ReplayIsExact(d: Driver, stream: Stream, payloads: seq<seq<byte>>, replays: seq<Replay>, listening: set<WaiterId>)
    requires ReplaySubscriptions(d, stream, payloads, replays, listening).1.Ok?
    ensures var made := ReplaySubscriptions(d, stream, payloads, replays, listening).1.value;
            && stream.sent <= made.sent && made.replayed == stream.replayed + |payloads|
            && ReplayOf(made.sent[|stream.sent|..], payloads)
            && AllAcknowledged(made.sent[|stream.sent|..], replays)
    decreases payloads
  {
    if payloads != [] {
      NoReplayFails(d, stream, payloads, listening);
      hide ReplayOne, Acknowledges, AllAcknowledged, ReplayOf;
      assert replays != [];
      var (next, grown) := ReplayOne(d, stream, payloads[0], replays[0], listening);
      ReplayOneIsExact(d, stream, payloads[0], replays[0], listening);
      ReplayIsExact(next, grown.value, payloads[1..], replays[1..], listening);
      var made := ReplaySubscriptions(d, stream, payloads, replays, listening).1.value;
      ReplayCons(stream.sent, Sent(d.nextRequest, Subscribe, payloads[0], None), made.sent, payloads, replays);
    }
  }

  lemma NoReplayFails(d: Driver, stream: Stream, payloads: seq<seq<byte>>, listening: set<WaiterId>)
    requires payloads != []
    ensures ReplaySubscriptions(d, stream, payloads, [], listening).1.Err?
  {
  }

  lemma ReplayCons(before: seq<Sent>, sent: Sent, all: seq<Sent>, payloads: seq<seq<byte>>, replays: seq<Replay>)
    requires payloads != [] && replays != [] && before + [sent] <= all
    requires sent.operation == Subscribe && sent.payload == payloads[0] && sent.call.None?
    requires Acknowledges(replays[0].frames, sent.requestId)
    requires ReplayOf(all[|before| + 1..], payloads[1..]) && AllAcknowledged(all[|before| + 1..], replays[1..])
    ensures before <= all && ReplayOf(all[|before|..], payloads) && AllAcknowledged(all[|before|..], replays)
  {
    hide Acknowledges;
    var tail := all[|before| + 1..];
    assert all[|before|..] == [sent] + tail;
    assert all[..|before|] == before;
  }

  // ----- The invariant -----

  ghost predicate Remembered(d: Driver) {
    d.subscriptions == FirstOccurrences(d.acknowledged)
  }

  predicate SentOn(sent: seq<Sent>, from: nat, payload: seq<byte>) {
    exists j :: from <= j < |sent| && sent[j].operation == Subscribe && sent[j].payload == payload
  }

  /** The stream first replayed a prefix of what is remembered, everything after
      belongs to calls, and what was remembered since was sent on it. */
  ghost predicate StreamCovers(stream: Stream, subscriptions: seq<seq<byte>>) {
    && stream.replayed <= |stream.sent| && stream.replayed <= |subscriptions|
    && ReplayOf(stream.sent[..stream.replayed], subscriptions[..stream.replayed])
    && (forall j :: stream.replayed <= j < |stream.sent| ==> stream.sent[j].call.Some?)
    && (forall i :: stream.replayed <= i < |subscriptions| ==> SentOn(stream.sent, stream.replayed, subscriptions[i]))
  }

  predicate ActiveOnStream(stream: Stream, active: ActiveCall) {
    active.operation == Subscribe ==> SentOn(stream.sent, stream.replayed, active.payload)
  }

  ghost predicate StreamKept(d: Driver) {
    && (d.stream.Some? ==> StreamCovers(d.stream.value, d.subscriptions))
    && (d.active.Some? ==> d.stream.Some? && ActiveOnStream(d.stream.value, d.active.value))
  }

  ghost predicate SubscriptionsKept(d: Driver) {
    Remembered(d) && StreamKept(d)
  }

  predicate SameStreams(d: Driver, e: Driver) {
    d.subscriptions == e.subscriptions && d.acknowledged == e.acknowledged && d.stream == e.stream && d.active == e.active
  }

  lemma SameStreamsKept(d: Driver, e: Driver)
    requires SubscriptionsKept(d) && SameStreams(d, e)
    ensures SubscriptionsKept(e)
  {
  }

  /** Losing the stream, or the active call, loses no subscription. */
  lemma LessKept(d: Driver, e: Driver)
    requires SubscriptionsKept(d) && e.subscriptions == d.subscriptions && e.acknowledged == d.acknowledged && e.active.None?
    requires e.stream == d.stream || e.stream.None?
    ensures SubscriptionsKept(e)
  {
  }

  lemma {:induction false} FailQueuedStreams(d: Driver, error: NetworkError)
    ensures SameStreams(d, FailAllQueuedCalls(d, error))
    decreases |d.queued|
  {
    if d.queued != [] {
      FailQueuedStreams(Resolve(d.(queued := d.queued[1..]), d.queued[0].call, Failed(error)), error);
    }
  }

  lemma ReplayOneForgetsNothing(d: Driver, stream: Stream, payload: seq<byte>, replay: Replay, listening: set<WaiterId>)
    ensures SameStreams(d, ReplayOne(d, stream, payload, replay, listening).0)
  {
    hide AwaitReplay;
    var (put, _) := Put(d.(nextRequest := d.nextRequest + 1), stream, Sent(d.nextRequest, Subscribe, payload, None));
    AwaitSame(put, d.nextRequest, replay.frames, replay.fault, listening);
  }

  lemma {:induction false} ReplayForgetsNothing(d: Driver, stream: Stream, payloads: seq<seq<byte>>, replays: seq<Replay>, listening: set<WaiterId>)
    ensures SameStreams(d, ReplaySubscriptions(d, stream, payloads, replays, listening).0)
    decreases payloads
  {
    if payloads != [] {
      hide ReplayOne;
      var replay := if replays == [] then NO_REPLAY else replays[0];
      ReplayOneForgetsNothing(d, stream, payloads[0], replay, listening);
      var (next, made) := ReplayOne(d, stream, payloads[0], replay, listening);
      if made.Ok? {
        ReplayForgetsNothing(next, made.value, payloads[1..], if replays == [] then [] else replays[1..], listening);
      }
    }
  }

  /** A new stream has replayed exactly what was acknowledged. */
  lemma EstablishedStreamReplays(d: Driver, t: Turn)
    requires Remembered(d) && EstablishStream(d, t).1.Ok?
    ensures var (e, made) := EstablishStream(d, t);
            && made.value.replayed == |made.value.sent|
            && ReplayOf(made.value.sent, FirstOccurrences(e.acknowledged))
            && AllAcknowledged(made.value.sent, t.replays)
            && SameStreams(d, e)
  {
    hide FirstOccurrences, ReplaySubscriptions, AllAcknowledged, ReplayOf;
    ReplayIsExact(d, Stream([], 0), d.subscriptions, t.replays, t.listening);
    ReplayForgetsNothing(d, Stream([], 0), d.subscriptions, t.replays, t.listening);
    var made := EstablishStream(d, t).1.value;
    assert made.sent[0..] == made.sent;
    ReplayLength(made.sent, d.subscriptions);
  }

  lemma ReplayLength(sent: seq<Sent>, payloads: seq<seq<byte>>)
    requires ReplayOf(sent, payloads)
    ensures |sent| == |payloads|
  {
  }

  lemma EstablishForgetsNothing(d: Driver, t: Turn)
    ensures SameStreams(d, EstablishStream(d, t).0)
  {
    ReplayForgetsNothing(d, Stream([], 0), d.subscriptions, t.replays, t.listening);
  }

  lemma FreshStreamCovers(stream: Stream, subscriptions: seq<seq<byte>>)
    requires stream.replayed == |stream.sent| && ReplayOf(stream.sent, subscriptions)
    ensures StreamCovers(stream, subscriptions)
  {
    assert stream.sent[..stream.replayed] == stream.sent && subscriptions[..stream.replayed] == subscriptions;
  }

  lemma ConnectCovers(d: Driver, t: Turn)
    requires SubscriptionsKept(d)
    ensures SubscriptionsKept(Connect(d, t).0)
  {
    hide EstablishStream, FailAllQueuedCalls, FailAllNotificationWaiters, StreamCovers, FirstOccurrences, ReplayOf, AllAcknowledged, ActiveOnStream;
    if ShouldEstablish(d) {
      var (e, made) := EstablishStream(d, t);
      EstablishForgetsNothing(d, t);
      if made.Err? {
        FailQueuedStreams(e, made.error);
        WaitersSame(FailAllQueuedCalls(e, made.error), made.error);
      } else {
        EstablishedStreamReplays(d, t);
        FreshStreamCovers(made.value, d.subscriptions);
      }
    }
  }

  // ----- Calls on the stream -----

  lemma SentOnGrows(sent: seq<Sent>, from: nat, payload: seq<byte>, s: Sent)
    requires SentOn(sent, from, payload)
    ensures SentOn(sent + [s], from, payload)
  {
    var j :| from <= j < |sent| && sent[j].operation == Subscribe && sent[j].payload == payload;
    assert (sent + [s])[j] == sent[j];
  }

  lemma GrownCovers(stream: Stream, subscriptions: seq<seq<byte>>, s: Sent)
    requires StreamCovers(stream, subscriptions) && s.call.Some?
    ensures StreamCovers(stream.(sent := stream.sent + [s]), subscriptions)
  {
    var all := stream.sent + [s];
    assert all[..stream.replayed] == stream.sent[..stream.replayed];
    hide ReplayOf, SentOn;
    forall i | stream.replayed <= i < |subscriptions| ensures SentOn(all, stream.replayed, subscriptions[i]) {
      SentOnGrows(stream.sent, stream.replayed, subscriptions[i], s);
    }
  }

  lemma StartedCovers(d: Driver)
    requires SubscriptionsKept(d) && d.active.None? && d.stream.Some? && d.queued != []
    ensures SubscriptionsKept(Started(d))
  {
    hide StreamCovers, FirstOccurrences;
    var call := d.queued[0];
    var s := Sent(d.nextRequest, call.operation, call.payload, Some(call.call));
    var stream := d.stream.value;
    GrownCovers(stream, d.subscriptions, s);
    assert (stream.sent + [s])[|stream.sent|] == s;
    if call.operation == Subscribe {
      CoversBound(stream, d.subscriptions);
      assert SentOn(stream.sent + [s], stream.replayed, call.payload);
    }
  }

  lemma CoversBound(stream: Stream, subscriptions: seq<seq<byte>>)
    requires StreamCovers(stream, subscriptions)
    ensures stream.replayed <= |stream.sent|
  {
  }

  lemma StartCovers(d: Driver, t: Turn)
    requires SubscriptionsKept(d)
    ensures var (e, done) := StartNextQueuedCall(d, t);
            SubscriptionsKept(e) && (done.Err? ==> e.active.None?)
  {
    hide SubscriptionsKept;
    if d.active.None? && d.stream.Some? && d.queued != [] {
      hide StartNextQueuedCall;
      StartCases(d, t);
      if !t.encoded {
        SameStreamsKept(d, StartNextQueuedCall(d, t).0);
      } else {
        StartedCovers(d);
        if !t.sent { LessKept(Started(d), StartNextQueuedCall(d, t).0); }
      }
    }
  }

  /** What the successful response to a subscription does to the memory. */
  function Remember(d: Driver, payload: seq<byte>): Driver {
    d.(active := None, acknowledged := d.acknowledged + [payload],
       subscriptions := if payload in d.subscriptions then d.subscriptions else d.subscriptions + [payload])
  }

  lemma OccurrenceAppend(payloads: seq<seq<byte>>, payload: seq<byte>)
    ensures var before := FirstOccurrences(payloads);
            FirstOccurrences(payloads + [payload]) == if payload in before then before else before + [payload]
  {
    assert (payloads + [payload])[..|payloads|] == payloads;
  }

  lemma MoreCovers(stream: Stream, subscriptions: seq<seq<byte>>, payload: seq<byte>)
    requires StreamCovers(stream, subscriptions) && SentOn(stream.sent, stream.replayed, payload)
    ensures StreamCovers(stream, subscriptions + [payload])
  {
    hide SentOn;
    assert (subscriptions + [payload])[..stream.replayed] == subscriptions[..stream.replayed];
  }

  lemma RememberCovers(d: Driver)
    requires SubscriptionsKept(d) && d.active.Some? && d.active.value.operation == Subscribe
    ensures SubscriptionsKept(Remember(d, d.active.value.payload))
  {
    hide StreamCovers, SentOn;
    OccurrenceAppend(d.acknowledged, d.active.value.payload);
    MoreCovers(d.stream.value, d.subscriptions, d.active.value.payload);
  }

  lemma ResponseCovers(d: Driver, frame: Frame, id: nat)
    requires SubscriptionsKept(d)
    ensures SubscriptionsKept(HandleResponse(d, frame, id).0)
  {
    hide SubscriptionsKept, ValidateResponse;
    if d.active.Some? {
      var e := HandleResponse(d, frame, id).0;
      var active := d.active.value;
      if id == active.requestId && ValidateResponse(frame, id, active.operation).Ok? && active.operation == Subscribe {
        RememberCovers(d);
        SameStreamsKept(Remember(d, active.payload), e);
      } else {
        LessKept(d, e);
      }
    }
  }

  lemma LoseCovers(d: Driver, error: NetworkError)
    requires SubscriptionsKept(d)
    ensures SubscriptionsKept(LoseStream(d, error))
  {
    hide SubscriptionsKept, FailAllNotificationWaiters;
    WaitersSame(FailActiveCall(d, error), error);
    LessKept(d, LoseStream(d, error));
  }

  lemma FinishCovers(d: Driver)
    requires SubscriptionsKept(d)
    ensures SubscriptionsKept(Finish(d))
  {
    hide SubscriptionsKept, FailAllNotificationWaiters, FailAllQueuedCalls;
    var failed := FailActiveCall(d, ConnectionFailed);
    FailQueuedStreams(failed, ConnectionFailed);
    WaitersSame(FailAllQueuedCalls(failed, ConnectionFailed), ConnectionFailed);
    LessKept(d, Finish(d));
  }

  lemma SelectCovers(d: Driver, t: Turn)
    requires SubscriptionsKept(d)
    ensures SubscriptionsKept(Select(d, t).0)
  {
    hide SubscriptionsKept, HandleResponse, QueueOrDeliver, LoseStream, Finish;
    match t.event
    case Shutdown => FinishCovers(d);
    case CommandsClosed => FinishCovers(d);
    case Commanded(command) => SameStreamsKept(d, HandleCommand(d, command, t.listening));
    case Arrived(frame) =>
      if frame.decoded.Ok? {
        if frame.decoded.value.id.Some? {
          ResponseCovers(d, frame, frame.decoded.value.id.value);
        } else {
          QueueSame(d, frame, t.listening);
          SameStreamsKept(d, QueueOrDeliver(d, frame, t.listening).0);
        }
      }
      var (handled, done) := HandleReceivedFrame(d, frame, t.listening);
      if done.Err? { LoseCovers(handled, done.error); }
    case Fault(error) => LoseCovers(d, error);
    case Deadline => LoseCovers(d, ResponseTimeout);
  }

  lemma RestCovers(d: Driver, t: Turn)
    requires SubscriptionsKept(d)
    ensures SubscriptionsKept(Rest(d, t).0)
  {
    hide SubscriptionsKept, Select, StartNextQueuedCall, FailAllNotificationWaiters;
    StartCovers(d, t);
    var (started, done) := StartNextQueuedCall(d, t);
    if done.Err? {
      WaitersSame(started, done.error);
      LessKept(started, Rest(d, t).0);
    } else {
      SelectCovers(started, t);
    }
  }

  lemma TurnCovers(d: Driver, t: Turn)
    requires SubscriptionsKept(d)
    ensures SubscriptionsKept(TurnOnce(d, t).0)
  {
    hide SubscriptionsKept, Connect, Rest, Finish, DispatchQueuedNotifications;
    if t.stop {
      FinishCovers(d);
    } else {
      var numbered := d.(nextRequest := d.nextRequest + t.idsUsedElsewhere);
      DispatchSame(numbered, t.listening);
      var dispatched := DispatchQueuedNotifications(numbered, t.listening);
      SameStreamsKept(d, dispatched);
      ConnectCovers(dispatched, t);
      RestCovers(Connect(dispatched, t).0, t);
    }
  }

  lemma {:induction false} RunCovers(d: Driver, turns: seq<Turn>)
    requires SubscriptionsKept(d)
    ensures SubscriptionsKept(Run(d, turns))
    decreases turns
  {
    hide SubscriptionsKept, TurnOnce;
    if turns != [] {
      TurnCovers(d, turns[0]);
      RunCovers(TurnOnce(d, turns[0]).0, turns[1..]);
    }
  }

  // ----- Main results -----

  /** Over every run the driver remembers each acknowledged subscription once, in
      the order of first success, and its live stream has carried every one of
      them: first a replay of a prefix, then the requests of calls. */
  lemma SubscriptionsOverEveryRun(turns: seq<Turn>)
    ensures var d := Run(IDLE, turns);
            && d.subscriptions == FirstOccurrences(d.acknowledged) && Distinct(d.subscriptions)
            && (forall p :: p in d.subscriptions <==> p in d.acknowledged)
            && (d.stream.Some? ==>
                  && StreamCovers(d.stream.value, d.subscriptions)
                  && (forall p :: p in d.acknowledged ==> SentOn(d.stream.value.sent, 0, p)))
  {
    assert SubscriptionsKept(IDLE) by { assert FirstOccurrences([]) == []; }
    RunCovers(IDLE, turns);
    var d := Run(IDLE, turns);
    hide Run;
    FirstOccurrencesAreASet(d.acknowledged);
    if d.stream.Some? {
      forall p | p in d.acknowledged ensures SentOn(d.stream.value.sent, 0, p) {
        hide FirstOccurrences;
        CoveredWasSent(d.stream.value, d.subscriptions, p);
      }
    }
  }

  lemma CoveredWasSent(stream: Stream, subscriptions: seq<seq<byte>>, p: seq<byte>)
    requires StreamCovers(stream, subscriptions) && p in subscriptions
    ensures SentOn(stream.sent, 0, p)
  {
    var i :| 0 <= i < |subscriptions| && subscriptions[i] == p;
    if i < stream.replayed {
      assert stream.sent[..stream.replayed][i].payload == subscriptions[..stream.replayed][i];
      assert stream.sent[i] == stream.sent[..stream.replayed][i];
    }
  }

  /** Whatever run came before, a stream that is established has replayed, one
      after the other and each acknowledged, exactly the distinct payloads
      acknowledged so far in the order of first success. */
  lemma EveryEstablishedStreamReplays(turns: seq<Turn>, t: Turn)
    requires EstablishStream(Run(IDLE, turns), t).1.Ok?
    ensures var d := Run(IDLE, turns);
            var stream := EstablishStream(d, t).1.value;
            && ReplayOf(stream.sent, FirstOccurrences(d.acknowledged))
            && AllAcknowledged(stream.sent, t.replays)
            && Distinct(FirstOccurrences(d.acknowledged))
  {
    SubscriptionsOverEveryRun(turns);
    EstablishedStreamReplays(Run(IDLE, turns), t);
  }
}
