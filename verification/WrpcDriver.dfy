/** The driver task that owns the socket (src/platform/native/websocket_driver.rs),
    one turn of its loop at a time. What the environment does in a turn is the
    turn's argument; what the driver tells the outside world is kept as history. */
module WrpcDriver {
  import opened Common
  import opened WrpcTypes

  const MAX_QUEUED_NOTIFICATIONS: nat := 256

  type CallId = nat
  type WaiterId = nat

  datatype QueuedCall = QueuedCall(call: CallId, operation: Operation, payload: seq<byte>)
  datatype ActiveCall = ActiveCall(requestId: nat, call: CallId, operation: Operation, payload: seq<byte>)

  /** How a call ended; a dropped one never got an answer at all. */
  datatype Outcome = Replied(payload: seq<byte>, frame: Frame) | Failed(error: NetworkError) | Dropped
  datatype Resolution = Resolution(call: CallId, outcome: Outcome)

  /** One request put on the wire; a replayed subscription belongs to no call. */
  datatype Sent = Sent(requestId: nat, operation: Operation, payload: seq<byte>, call: Option<CallId>)

  /** A live socket, what was sent on it, and how much of that was replay. */
  datatype Stream = Stream(sent: seq<Sent>, replayed: nat)

  /** A notification handed to a waiter, and whether anyone still listened. */
  datatype Handed = Handed(frame: Frame, waiter: WaiterId, heard: bool)

  datatype Driver = Driver(
    stream: Option<Stream>,
    queued: seq<QueuedCall>,
    active: Option<ActiveCall>,
    notifications: seq<Frame>,
    waiters: seq<WaiterId>,
    subscriptions: seq<seq<byte>>,
    nextRequest: nat,
    // history
    accepted: seq<CallId>,
    resolved: seq<Resolution>,
    wire: seq<Sent>,
    handed: seq<Handed>,
    waitersAccepted: seq<WaiterId>,
    waitersFailed: seq<(WaiterId, NetworkError)>,
    waitersGone: seq<WaiterId>,
    acknowledged: seq<seq<byte>>)

  const IDLE := Driver(None, [], None, [], [], [], 1, [], [], [], [], [], [], [], [])

  datatype Command =
    | Call(call: CallId, operation: Operation, payload: seq<byte>)
    | NextNotification(waiter: WaiterId)

  /** What becomes of replaying one subscription: whether it could be encoded and
      sent, the frames that then arrive, and the fault when they run out. */
  datatype Replay = Replay(encoded: bool, sent: bool, frames: seq<Frame>, fault: NetworkError)

  datatype Event =
    | Shutdown
    | CommandsClosed
    | Commanded(command: Command)
    | Arrived(frame: Frame)
    | Fault(error: NetworkError)
    | Deadline

  /** The environment's part of a turn. */
  datatype Turn = Turn(
    stop: bool,                              // a stop was already requested
    idsUsedElsewhere: nat,                   // by other drivers of the process
    listening: set<WaiterId>,                // waiters whose receiver still exists
    connected: Result<(), NetworkError>,
    replays: seq<Replay>,
    encoded: bool, sent: bool,               // of the next queued call
    event: Event)

  // ----- Helpers -----

  function Resolve(d: Driver, call: CallId, outcome: Outcome): Driver {
    d.(resolved := d.resolved + [Resolution(call, outcome)])
  }

  function FailActiveCall(d: Driver, error: NetworkError): Driver {
    match d.active
    case None => d
    case Some(active) => Resolve(d.(active := None), active.call, Failed(error))
  }

  function FailAllQueuedCalls(d: Driver, error: NetworkError): Driver
    decreases |d.queued|
  {
    if d.queued == [] then d
    else FailAllQueuedCalls(Resolve(d.(queued := d.queued[1..]), d.queued[0].call, Failed(error)), error)
  }

  function FailAllNotificationWaiters(d: Driver, error: NetworkError): Driver
    decreases |d.waiters|
  {
    if d.waiters == [] then d
    else FailAllNotificationWaiters(d.(waiters := d.waiters[1..], waitersFailed := d.waitersFailed + [(d.waiters[0], error)]), error)
  }

  /** Gives the frame to the first waiter that still listens; waiters that do
      not are forgotten on the way. */
  function Offer(d: Driver, frame: Frame, listening: set<WaiterId>): (Driver, bool)
    decreases |d.waiters|
  {
    if d.waiters == [] then (d, false)
    else
      var rest := d.(waiters := d.waiters[1..]);
      if d.waiters[0] in listening then (rest.(handed := d.handed + [Handed(frame, d.waiters[0], true)]), true)
      else Offer(rest.(waitersGone := d.waitersGone + [d.waiters[0]]), frame, listening)
  }

  function QueueOrDeliver(d: Driver, frame: Frame, listening: set<WaiterId>): (Driver, Result<(), NetworkError>) {
    var (offered, taken) := Offer(d, frame, listening);
    if taken then (offered, Ok(()))
    else if |d.notifications| >= MAX_QUEUED_NOTIFICATIONS then (offered, Err(UnexpectedResponse))
    else (offered.(notifications := d.notifications + [frame]), Ok(()))
  }

  function DispatchQueuedNotifications(d: Driver, listening: set<WaiterId>): Driver
    decreases |d.notifications|
  {
    if d.notifications == [] || d.waiters == [] then d
    else
      var (offered, taken) := Offer(d, d.notifications[0], listening);
      if taken then DispatchQueuedNotifications(offered.(notifications := d.notifications[1..]), listening) else offered
  }

  function HandleCommand(d: Driver, command: Command, listening: set<WaiterId>): Driver {
    match command
    case Call(call, operation, payload) =>
      d.(queued := d.queued + [QueuedCall(call, operation, payload)], accepted := d.accepted + [call])
    case NextNotification(waiter) =>
      var counted := d.(waitersAccepted := d.waitersAccepted + [waiter]);
      if d.notifications != []
      then counted.(notifications := d.notifications[1..],
                    handed := d.handed + [Handed(d.notifications[0], waiter, waiter in listening)])
      else counted.(waiters := d.waiters + [waiter])
  }

  // ----- Establishing a stream -----

  /** Puts a request on the wire of the stream being established. */
  function Put(d: Driver, stream: Stream, sent: Sent): (Driver, Stream) {
    (d.(wire := d.wire + [sent]), stream.(sent := stream.sent + [sent]))
  }

  /** Reads frames until the response to `requestId` arrives. */
  function AwaitReplay(d: Driver, requestId: nat, frames: seq<Frame>, fault: NetworkError, listening: set<WaiterId>)
    : (Driver, Result<(), NetworkError>)
    decreases frames
  {
    if frames == [] then (d, Err(fault))
    else
      match frames[0].decoded
      case Err(error) => (d, Err(error))
      case Ok(decoded) =>
        if decoded.id.None? then
          if !decoded.kind.Notification? then (d, Err(UnexpectedResponse))
          else
            var (queued, done) := QueueOrDeliver(d, frames[0], listening);
            if done.Err? then (queued, done) else AwaitReplay(queued, requestId, frames[1..], fault, listening)
        else
          match ValidateResponse(frames[0], requestId, Subscribe)
          case Err(error) => (d, Err(error))
          case Ok(_) => (d, Ok(()))
  }

  const NO_REPLAY := Replay(true, false, [], ResponseTimeout)

  /** Replays one subscription, until it is acknowledged. */
  function ReplayOne(d: Driver, stream: Stream, payload: seq<byte>, replay: Replay, listening: set<WaiterId>)
    : (Driver, Result<Stream, NetworkError>)
  {
    var requestId := d.nextRequest;
    var numbered := d.(nextRequest := requestId + 1);
    if !replay.encoded then (numbered, Err(InvalidLength))
    else
      var (put, grown) := Put(numbered, stream, Sent(requestId, Subscribe, payload, None));
      if !replay.sent then (put, Err(SendFailed))
      else
        var (next, done) := AwaitReplay(put, requestId, replay.frames, replay.fault, listening);
        match done
        case Err(error) => (next, Err(error))
        case Ok(_) => (next, Ok(grown.(replayed := grown.replayed + 1)))
  }

  /** Replays subscriptions one after the other. */
  function ReplaySubscriptions(d: Driver, stream: Stream, payloads: seq<seq<byte>>, replays: seq<Replay>, listening: set<WaiterId>)
    : (Driver, Result<Stream, NetworkError>)
    decreases payloads
  {
    if payloads == [] then (d, Ok(stream))
    else
      var (next, made) := ReplayOne(d, stream, payloads[0], if replays == [] then NO_REPLAY else replays[0], listening);
      match made
      case Err(error) => (next, Err(error))
      case Ok(grown) => ReplaySubscriptions(next, grown, payloads[1..], if replays == [] then [] else replays[1..], listening)
  }

  function EstablishStream(d: Driver, t: Turn): (Driver, Result<Stream, NetworkError>) {
    match t.connected
    case Err(error) => (d, Err(error))
    case Ok(_) => ReplaySubscriptions(d, Stream([], 0), d.subscriptions, t.replays, t.listening)
  }

  // ----- Calls -----

  /** Puts the next queued call on the wire, or says why it could not; a call
      that cannot be encoded is dropped unanswered. */
  function StartNextQueuedCall(d: Driver, t: Turn): (Driver, Result<(), NetworkError>) {
    if d.active.Some? || d.stream.None? || d.queued == [] then (d, Ok(()))
    else
      var call, requestId := d.queued[0], d.nextRequest;
      var numbered := d.(queued := d.queued[1..], nextRequest := requestId + 1);
      if !t.encoded then (Resolve(numbered, call.call, Dropped), Err(InvalidLength))
      else
        var (put, grown) := Put(numbered, d.stream.value, Sent(requestId, call.operation, call.payload, Some(call.call)));
        var onStream := put.(stream := Some(grown));
        if !t.sent then (Resolve(onStream, call.call, Failed(SendFailed)), Err(SendFailed))
        else (onStream.(active := Some(ActiveCall(requestId, call.call, call.operation, call.payload))), Ok(()))
  }

  function HandleResponse(d: Driver, frame: Frame, id: nat): (Driver, Result<(), NetworkError>) {
    match d.active
    case None => (d, Err(UnexpectedResponse))
    case Some(active) =>
      var taken := d.(active := None);
      if id != active.requestId then
        var error := MismatchedRequestId(active.requestId, id);
        (Resolve(taken, active.call, Failed(error)), Err(error))
      else
        match ValidateResponse(frame, active.requestId, active.operation)
        case Err(error) => (Resolve(taken, active.call, Failed(error)), Ok(()))
        case Ok(payload) =>
          var remembered :=
            if active.operation != Subscribe then taken
            else taken.(acknowledged := d.acknowledged + [active.payload],
                        subscriptions := if active.payload in d.subscriptions then d.subscriptions
                                         else d.subscriptions + [active.payload]);
          (Resolve(remembered, active.call, Replied(payload, frame)), Ok(()))
  }

  function HandleReceivedFrame(d: Driver, frame: Frame, listening: set<WaiterId>): (Driver, Result<(), NetworkError>) {
    match frame.decoded
    case Err(error) => (d, Err(error))
    case Ok(decoded) =>
      match decoded.id
      case None => if !decoded.kind.Notification? then (d, Err(UnexpectedResponse)) else QueueOrDeliver(d, frame, listening)
      case Some(id) => HandleResponse(d, frame, id)
  }

  // ----- One turn -----

  /** The stream broke: the call on it fails and its waiters are told. */
  function LoseStream(d: Driver, error: NetworkError): Driver {
    FailAllNotificationWaiters(FailActiveCall(d, error), error).(stream := None)
  }

  function Finish(d: Driver): Driver {
    FailAllNotificationWaiters(FailAllQueuedCalls(FailActiveCall(d, ConnectionFailed), ConnectionFailed), ConnectionFailed)
  }

  predicate ShouldEstablish(d: Driver) {
    d.stream.None? && (d.queued != [] || d.waiters != [])
  }

  /** What the driver waits for at the end of a turn; events that cannot occur
      in its state change nothing. */
  function Select(d: Driver, t: Turn): (Driver, bool) {
    match t.event
    case Shutdown => (Finish(d), false)
    case CommandsClosed => (Finish(d), false)
    case Commanded(command) => (HandleCommand(d, command, t.listening), true)
    case Arrived(frame) =>
      if d.stream.None? then (d, true)
      else
        var (handled, done) := HandleReceivedFrame(d, frame, t.listening);
        (if done.Err? then LoseStream(handled, done.error) else handled, true)
    case Fault(error) => (if d.stream.None? then d else LoseStream(d, error), true)
    case Deadline => (if d.stream.None? || d.active.None? then d else LoseStream(d, ResponseTimeout), true)
  }

  /** Makes the stream this turn needs, if any; a failure fails everyone who
      waits for the stream. */
  function Connect(d: Driver, t: Turn): (Driver, Result<(), NetworkError>) {
    if !ShouldEstablish(d) then (d, Ok(()))
    else
      var (e, made) := EstablishStream(d, t);
      match made
      case Ok(stream) => (e.(stream := Some(stream)), Ok(()))
      case Err(error) => (FailAllNotificationWaiters(FailAllQueuedCalls(e, error), error), Err(error))
  }

  /** The rest of a turn, once the stream is there or not needed. */
  function Rest(d: Driver, t: Turn): (Driver, bool) {
    var (started, done) := StartNextQueuedCall(d, t);
    if done.Err? then (FailAllNotificationWaiters(started, done.error).(stream := None), true) else Select(started, t)
  }

  /** One turn of the loop, and whether the driver goes on. */
  function TurnOnce(d: Driver, t: Turn): (Driver, bool) {
    if t.stop then (Finish(d), false)
    else
      var numbered := d.(nextRequest := d.nextRequest + t.idsUsedElsewhere);
      var (ready, connected) := Connect(DispatchQueuedNotifications(numbered, t.listening), t);
      if connected.Err? then (ready, true) else Rest(ready, t)
  }

  /** Turns until the driver stops. */
  function Run(d: Driver, turns: seq<Turn>): Driver
    decreases turns
  {
    if turns == [] then d
    else
      var (next, goesOn) := TurnOnce(d, turns[0]);
      if goesOn then Run(next, turns[1..]) else next
  }

  // ----- Looking into a run -----

  /** The state in which a turn waits for its event, when it gets that far. */
  function AtEvent(d: Driver, t: Turn): Option<Driver> {
    if t.stop then None
    else
      var numbered := d.(nextRequest := d.nextRequest + t.idsUsedElsewhere);
      var (ready, connected) := Connect(DispatchQueuedNotifications(numbered, t.listening), t);
      if connected.Err? then None
      else
        var (started, done) := StartNextQueuedCall(ready, t);
        if done.Err? then None else Some(started)
  }

  /** From there on the turn is its event. */
  lemma TurnFromEvent(d: Driver, t: Turn)
    ensures AtEvent(d, t).Some? ==> TurnOnce(d, t) == Select(AtEvent(d, t).value, t)
  {
  }

  /** The state in which turn `i` begins, when the run gets there. */
  function StateAt(d: Driver, turns: seq<Turn>, i: nat): Option<Driver>
    requires i <= |turns|
    decreases i
  {
    if i == 0 then Some(d)
    else
      var (next, goesOn) := TurnOnce(d, turns[0]);
      if goesOn then StateAt(next, turns[1..], i - 1) else None
  }

  /** It is what the turns before have led to. */
  lemma {:induction false} StateAtIsRun(d: Driver, turns: seq<Turn>, i: nat)
    requires i <= |turns|
    ensures StateAt(d, turns, i).Some? ==> StateAt(d, turns, i).value == Run(d, turns[..i])
    decreases i
  {
    hide TurnOnce;
    if i > 0 {
      assert turns[..i][0] == turns[0] && turns[..i][1..] == turns[1..][..i - 1];
      var (next, goesOn) := TurnOnce(d, turns[0]);
      if goesOn { StateAtIsRun(next, turns[1..], i - 1); }
    }
  }
}
