/** Steps of the driver that answer no request. */
module WrpcQuiet {
  import opened Common
  import opened WrpcTypes
  import opened WrpcDriver
  import opened WrpcCalls

  /** Only requests under new ids, and only calls without a reply, are added. */
  predicate Quietly(d: Driver, e: Driver) {
    && e.acknowledged == d.acknowledged && d.nextRequest <= e.nextRequest
    && d.wire <= e.wire && d.resolved <= e.resolved
    && (forall i :: |d.wire| <= i < |e.wire| ==> d.nextRequest <= e.wire[i].requestId)
    && (forall k :: |d.resolved| <= k < |e.resolved| ==> !e.resolved[k].outcome.Replied?)
  }

  lemma QuietlyOn(d: Driver, e: Driver, f: Driver)
    requires Quietly(d, e) && Quietly(e, f)
    ensures Quietly(d, f)
  {
    forall i | |d.wire| <= i < |f.wire| ensures d.nextRequest <= f.wire[i].requestId {
      if i < |e.wire| { assert f.wire[i] == e.wire[i]; }
    }
    forall k | |d.resolved| <= k < |f.resolved| ensures !f.resolved[k].outcome.Replied? {
      if k < |e.resolved| { assert f.resolved[k] == e.resolved[k]; }
    }
  }

  lemma SameIsQuiet(d: Driver, e: Driver)
    requires SameCalls(d, e) && e.acknowledged == d.acknowledged
    ensures Quietly(d, e)
  {
  }

  lemma ResolveIsQuiet(d: Driver, e: Driver, call: CallId, outcome: Outcome)
    requires !outcome.Replied? && Quietly(d, e)
    ensures Quietly(d, Resolve(e, call, outcome))
  {
    QuietlyOn(d, e, Resolve(e, call, outcome));
  }

  lemma PutIsQuiet(d: Driver, stream: Stream, sent: Sent)
    requires sent.requestId == d.nextRequest
    ensures Quietly(d, Put(d.(nextRequest := d.nextRequest + 1), stream, sent).0)
  {
  }

  lemma {:induction false} FailQueuedIsQuiet(d: Driver, error: NetworkError)
    ensures Quietly(d, FailAllQueuedCalls(d, error))
    decreases |d.queued|
  {
    if d.queued != [] {
      var next := Resolve(d.(queued := d.queued[1..]), d.queued[0].call, Failed(error));
      FailQueuedIsQuiet(next, error);
      QuietlyOn(d, next, FailAllQueuedCalls(next, error));
    }
  }

  lemma WaitersAreQuiet(d: Driver, error: NetworkError)
    ensures Quietly(d, FailAllNotificationWaiters(d, error))
  {
    hide FailAllNotificationWaiters;
    WaitersSame(d, error);
    SameIsQuiet(d, FailAllNotificationWaiters(d, error));
  }

  lemma FailActiveIsQuiet(d: Driver, error: NetworkError)
    ensures Quietly(d, FailActiveCall(d, error))
  {
  }

  lemma LoseIsQuiet(d: Driver, error: NetworkError)
    ensures Quietly(d, LoseStream(d, error))
  {
    hide Quietly, FailActiveCall, FailAllNotificationWaiters;
    var failed := FailActiveCall(d, error);
    var told := FailAllNotificationWaiters(failed, error);
    FailActiveIsQuiet(d, error);
    WaitersAreQuiet(failed, error);
    QuietlyOn(d, failed, told);
    StreamIsQuiet(d, told, None);
  }

  lemma StreamIsQuiet(d: Driver, e: Driver, stream: Option<Stream>)
    requires Quietly(d, e)
    ensures Quietly(d, e.(stream := stream))
  {
  }

  lemma FinishIsQuiet(d: Driver)
    ensures Quietly(d, Finish(d))
  {
    hide Quietly, FailActiveCall, FailAllQueuedCalls, FailAllNotificationWaiters;
    var failed := FailActiveCall(d, ConnectionFailed);
    var empty := FailAllQueuedCalls(failed, ConnectionFailed);
    FailActiveIsQuiet(d, ConnectionFailed);
    FailQueuedIsQuiet(failed, ConnectionFailed);
    QuietlyOn(d, failed, empty);
    WaitersAreQuiet(empty, ConnectionFailed);
    QuietlyOn(d, empty, Finish(d));
  }

  lemma ReplayOneIsQuiet(d: Driver, stream: Stream, payload: seq<byte>, replay: Replay, listening: set<WaiterId>)
    ensures Quietly(d, ReplayOne(d, stream, payload, replay, listening).0)
  {
    hide AwaitReplay;
    var (put, _) := Put(d.(nextRequest := d.nextRequest + 1), stream, Sent(d.nextRequest, Subscribe, payload, None));
    PutIsQuiet(d, stream, Sent(d.nextRequest, Subscribe, payload, None));
    AwaitSame(put, d.nextRequest, replay.frames, replay.fault, listening);
    var next := AwaitReplay(put, d.nextRequest, replay.frames, replay.fault, listening).0;
    SameIsQuiet(put, next);
    QuietlyOn(d, put, next);
  }

  lemma {:induction false} ReplayIsQuiet(d: Driver, stream: Stream, payloads: seq<seq<byte>>, replays: seq<Replay>, listening: set<WaiterId>)
    ensures Quietly(d, ReplaySubscriptions(d, stream, payloads, replays, listening).0)
    decreases payloads
  {
    hide ReplayOne, Quietly;
    if payloads == [] {
      NothingIsQuiet(d);
    } else {
      var replay := if replays == [] then NO_REPLAY else replays[0];
      ReplayOneIsQuiet(d, stream, payloads[0], replay, listening);
      var (next, made) := ReplayOne(d, stream, payloads[0], replay, listening);
      if made.Ok? {
        var later := if replays == [] then [] else replays[1..];
        ReplayIsQuiet(next, made.value, payloads[1..], later, listening);
        QuietlyOn(d, next, ReplaySubscriptions(next, made.value, payloads[1..], later, listening).0);
      }
    }
  }

  lemma NothingIsQuiet(d: Driver)
    ensures Quietly(d, d)
  {
  }

  lemma ConnectIsQuiet(d: Driver, t: Turn)
    ensures Quietly(d, Connect(d, t).0)
  {
    hide Quietly, ReplaySubscriptions, FailAllQueuedCalls, FailAllNotificationWaiters;
    NothingIsQuiet(d);
    if ShouldEstablish(d) {
      ReplayIsQuiet(d, Stream([], 0), d.subscriptions, t.replays, t.listening);
      var (e, made) := EstablishStream(d, t);
      if made.Err? {
        var empty := FailAllQueuedCalls(e, made.error);
        FailQueuedIsQuiet(e, made.error);
        QuietlyOn(d, e, empty);
        WaitersAreQuiet(empty, made.error);
        QuietlyOn(d, empty, Connect(d, t).0);
      } else {
        StreamIsQuiet(d, e, Some(made.value));
      }
    }
  }

  lemma StartIsQuiet(d: Driver, t: Turn)
    ensures Quietly(d, StartNextQueuedCall(d, t).0)
  {
    if d.active.None? && d.stream.Some? && d.queued != [] {
      StartCases(d, t);
      hide StartNextQueuedCall;
      var call := d.queued[0].call;
      assert Quietly(d, Started(d));
      if !t.encoded {
        ResolveIsQuiet(d, d.(nextRequest := d.nextRequest + 1, queued := d.queued[1..]), call, Dropped);
      } else if !t.sent {
        ResolveIsQuiet(d, Started(d).(active := None), call, Failed(SendFailed));
      }
    }
  }

  lemma TakenIsQuiet(d: Driver, outcome: Outcome)
    requires d.active.Some? && !outcome.Replied?
    ensures Quietly(d, Resolve(d.(active := None), d.active.value.call, outcome))
  {
  }

  lemma CommandIsQuiet(d: Driver, command: Command, listening: set<WaiterId>)
    ensures Quietly(d, HandleCommand(d, command, listening))
  {
  }

  lemma NumberedIsQuiet(d: Driver, n: nat)
    ensures Quietly(d, d.(nextRequest := d.nextRequest + n))
  {
  }
}
