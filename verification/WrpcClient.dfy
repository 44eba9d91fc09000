/** The callers' side of the transport (src/platform/native/websocket.rs): the
    slot that holds the current driver, and the retry of a stale connection. */
module WrpcClient {
  import opened Common
  import opened WrpcTypes
  import opened WrpcDriver
  import opened WrpcCalls

  type DriverId = nat

  /** A command handed to a driver, under a call id of its own. */
  datatype Submission = Submission(driver: DriverId, call: CallId)

  /** The environment's part of one attempt: which drivers have stopped when the
      sender is fetched, whether the channel took the command, which have stopped
      when it did not, and the answer, if the driver lived to give one. */
  datatype Attempt = Attempt(
    stopped: set<DriverId>, taken: bool, stoppedSince: set<DriverId>, answer: Option<Result<seq<byte>, NetworkError>>)

  /** What the caller of one attempt gets. */
  function Answer(a: Attempt): Result<seq<byte>, NetworkError> {
    if a.taken && a.answer.Some? then a.answer.value else Err(ConnectionFailed)
  }

  predicate WorthRetrying(a: Attempt) {
    Answer(a).Err? && ReconnectableTransportError(Answer(a).error)
  }

  class Transport {
    var driver: Option<DriverId>
    var drivers: nat                       // started so far
    ghost var calls: CallId                // the next call id
    ghost var submissions: seq<Submission>
    ghost var waits: seq<DriverId>         // where notifications were waited for

    ghost predicate Valid()
      reads this
    {
      && (driver.Some? ==> driver.value < drivers)
      && (forall i :: 0 <= i < |submissions| ==> submissions[i].driver < drivers && submissions[i].call < calls)
      && (forall i, j :: 0 <= i < j < |submissions| ==> submissions[i].call < submissions[j].call)
    }

    constructor ()
      ensures Valid() && driver == None && drivers == 0 && submissions == [] && waits == []
    {
      driver, drivers, calls, submissions, waits := None, 0, 0, [], [];
    }

    /** The running driver, or a new one when there is none. */
    method DriverSender(stopped: set<DriverId>) returns (sender: DriverId)
      requires Valid()
      modifies this`driver, this`drivers
      ensures Valid() && driver == Some(sender)
      ensures old(driver.Some? && driver.value !in stopped) ==> sender == old(driver.value) && drivers == old(drivers)
      ensures old(driver.None? || driver.value in stopped) ==> sender == old(drivers) && drivers == old(drivers) + 1
    {
      if driver.Some? && driver.value !in stopped {
        return driver.value;
      }
      sender := drivers;
      driver, drivers := Some(sender), drivers + 1;
    }

    /** Forgets the driver if that has stopped. */
    method ResetDriverIfClosed(stopped: set<DriverId>)
      requires Valid()
      modifies this`driver
      ensures Valid() && driver == if old(driver.Some? && driver.value in stopped) then None else old(driver)
    {
      if driver.Some? && driver.value in stopped {
        driver := None;
      }
    }

    /** The driver in the slot after an attempt. */
    ghost predicate SlotAfter(a: Attempt, before: Option<DriverId>, sender: DriverId)
      reads this
    {
      && (before.Some? && before.value !in a.stopped ==> sender == before.value)
      && driver == if !a.taken && sender in a.stoppedSince then None else Some(sender)
    }

    /** Submits the call to the current driver once. */
    method CallOnce(a: Attempt) returns (result: Result<seq<byte>, NetworkError>)
      requires Valid()
      modifies this`driver, this`drivers, this`calls, this`submissions
      ensures Valid() && result == Answer(a)
      ensures old(drivers) <= drivers <= old(drivers) + 1 && old(calls) <= calls
      ensures exists sender: DriverId ::
                && SlotAfter(a, old(driver), sender)
                && submissions == old(submissions) + if a.taken then [Submission(sender, old(calls))] else []
    {
      var sender := DriverSender(a.stopped);
      if a.taken {
        submissions, calls := submissions + [Submission(sender, calls)], calls + 1;
      } else {
        ResetDriverIfClosed(a.stoppedSince);
      }
      assert SlotAfter(a, old(driver), sender);
      result := if a.taken && a.answer.Some? then a.answer.value else Err(ConnectionFailed);
    }

    /** Waits once for a notification of the current driver; no call is submitted. */
    method NextNotificationOnce(a: Attempt) returns (result: Result<seq<byte>, NetworkError>)
      requires Valid()
      modifies this`driver, this`drivers, this`waits
      ensures Valid() && result == Answer(a)
      ensures old(drivers) <= drivers <= old(drivers) + 1
      ensures exists sender: DriverId ::
                SlotAfter(a, old(driver), sender) && waits == old(waits) + if a.taken then [sender] else []
    {
      var sender := DriverSender(a.stopped);
      if a.taken {
        waits := waits + [sender];
      } else {
        ResetDriverIfClosed(a.stoppedSince);
      }
      assert SlotAfter(a, old(driver), sender);
      result := if a.taken && a.answer.Some? then a.answer.value else Err(ConnectionFailed);
    }

    /** Answers one call of the API: a second attempt is made exactly when the
        first failed in a way a reconnect may cure and the operation is safe to
        repeat; each attempt submits at most one command. */
    method CallInner(operation: Operation, attempts: nat -> Attempt) returns (result: Result<seq<byte>, NetworkError>, tries: nat)
      requires Valid()
      modifies this`driver, this`drivers, this`calls, this`submissions
      ensures Valid()
      ensures tries == if operation != SubmitTransaction && WorthRetrying(attempts(0)) then 2 else 1
      ensures result == Answer(attempts(tries - 1))
      ensures old(submissions) <= submissions && |submissions| - |old(submissions)| == Taken(attempts, tries)
      ensures forall i :: |old(submissions)| <= i < |submissions| ==> old(calls) <= submissions[i].call
    {
      var retriedStaleConnection := false;
      tries := 0;
      while true
        invariant Valid() && tries == (if retriedStaleConnection then 1 else 0)
        invariant retriedStaleConnection ==> operation != SubmitTransaction && WorthRetrying(attempts(0))
        invariant old(submissions) <= submissions && |submissions| - |old(submissions)| == Taken(attempts, tries)
        invariant old(calls) <= calls
        invariant forall i :: |old(submissions)| <= i < |submissions| ==> old(calls) <= submissions[i].call
        decreases !retriedStaleConnection
      {
        result := CallOnce(attempts(tries));
        tries := tries + 1;
        if result.Err? && operation != SubmitTransaction && !retriedStaleConnection && ReconnectableTransportError(result.error) {
          retriedStaleConnection := true;
        } else {
          return;
        }
      }
    }

    /** Waits for one notification, again with at most one retry. */
    method NextNotificationInner(attempts: nat -> Attempt) returns (result: Result<seq<byte>, NetworkError>, tries: nat)
      requires Valid()
      modifies this`driver, this`drivers, this`waits
      ensures Valid()
      ensures tries == if WorthRetrying(attempts(0)) then 2 else 1
      ensures result == Answer(attempts(tries - 1))
      ensures old(waits) <= waits && |waits| - |old(waits)| == Taken(attempts, tries)
    {
      var retriedStaleConnection := false;
      tries := 0;
      while true
        invariant Valid() && tries == (if retriedStaleConnection then 1 else 0)
        invariant retriedStaleConnection ==> WorthRetrying(attempts(0))
        invariant old(waits) <= waits && |waits| - |old(waits)| == Taken(attempts, tries)
        decreases !retriedStaleConnection
      {
        result := NextNotificationOnce(attempts(tries));
        tries := tries + 1;
        if result.Err? && !retriedStaleConnection && ReconnectableTransportError(result.error) {
          retriedStaleConnection := true;
        } else {
          return;
        }
      }
    }
  }

  /** How many of the first `n` attempts reached a driver. */
  function Taken(attempts: nat -> Attempt, n: nat): (taken: nat)
    ensures taken <= n
  {
    if n == 0 then 0 else Taken(attempts, n - 1) + if attempts(n - 1).taken then 1 else 0
  }

  // ----- On the wire -----

  /** How often the commands of these submissions were put on the wire, when
      driver `k` of the process has run the turns `runs[k]`. */
  function TimesOnWire(runs: seq<seq<Turn>>, submissions: seq<Submission>): nat
    requires forall i :: 0 <= i < |submissions| ==> submissions[i].driver < |runs|
  {
    if submissions == [] then 0
    else
      var last := submissions[|submissions| - 1];
      TimesOnWire(runs, submissions[..|submissions| - 1]) + WiredCalls(Run(IDLE, runs[last.driver]).wire)[last.call]
  }

  /** Drivers accept a command at most once. */
  predicate AcceptedOnce(runs: seq<seq<Turn>>, s: Submission)
    requires s.driver < |runs|
  {
    multiset(Run(IDLE, runs[s.driver]).accepted)[s.call] <= 1
  }

  /** Whatever the drivers do, a submission is on the wire at most once, so the
      submissions of one API call are there at most as often as it tried. */
  lemma {:induction false} SubmissionsOnWire(runs: seq<seq<Turn>>, submissions: seq<Submission>)
    requires forall i :: 0 <= i < |submissions| ==> submissions[i].driver < |runs| && AcceptedOnce(runs, submissions[i])
    ensures TimesOnWire(runs, submissions) <= |submissions|
  {
    hide Run;
    if submissions != [] {
      var last := submissions[|submissions| - 1];
      SubmissionsOnWire(runs, submissions[..|submissions| - 1]);
      WiredAtMostOnce(runs[last.driver], last.call);
      assert AcceptedOnce(runs, last);
    }
  }

  lemma WiredAtMostOnce(turns: seq<Turn>, call: CallId)
    requires multiset(Run(IDLE, turns).accepted)[call] <= 1
    ensures WiredCalls(Run(IDLE, turns).wire)[call] <= 1
  {
    hide Run, QueuedCalls, ActiveCalls, EndedCalls, WiredCalls, WireInOrder, RepliesAnswer;
    IdleAccounted();
    RunAccounted(IDLE, turns);
    var d := Run(IDLE, turns);
    assert multiset(d.accepted)[call] == QueuedCalls(d.queued)[call] + ActiveCalls(d.active)[call] + EndedCalls(d.resolved)[call];
    assert WiredCalls(d.wire)[call] <= (ActiveCalls(d.active) + EndedCalls(d.resolved))[call];
  }

  /** One call of the API is put on the wire at most once when it submits a
      transaction, and at most twice otherwise, over all drivers it used. */
  method CallOnWire(transport: Transport, operation: Operation, attempts: nat -> Attempt) returns (result: Result<seq<byte>, NetworkError>)
    requires transport.Valid()
    modifies transport
    ensures transport.Valid() && old(transport.submissions) <= transport.submissions
    ensures forall runs: seq<seq<Turn>> {:trigger TimesOnWire(runs, transport.submissions[|old(transport.submissions)|..])} ::
      (forall i :: 0 <= i < |transport.submissions| ==>
        transport.submissions[i].driver < |runs| && AcceptedOnce(runs, transport.submissions[i])) ==>
      TimesOnWire(runs, transport.submissions[|old(transport.submissions)|..]) <= if operation == SubmitTransaction then 1 else 2
  {
    ghost var before := transport.submissions;
    var tries;
    result, tries := transport.CallInner(operation, attempts);
    ghost var after := transport.submissions;
    forall runs: seq<seq<Turn>> {:trigger TimesOnWire(runs, after[|before|..])}
      | forall i :: 0 <= i < |after| ==> after[i].driver < |runs| && AcceptedOnce(runs, after[i])
      ensures TimesOnWire(runs, after[|before|..]) <= if operation == SubmitTransaction then 1 else 2
    {
      SubmissionsOnWire(runs, after[|before|..]);
    }
  }
}
