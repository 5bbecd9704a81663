/**
 * `CoverageTestViewModel`: drives a coverage test over a secure connection.
 * It connects, subscribes, starts and stops the test and disconnects; the
 * SDK's test events become UI states, and the test-start event also sets
 * the total duration and starts a count-down timer of that length.
 * Starting, stopping and disconnecting publish nothing while no connection
 * is held; stopping still cancels the timer.
 */
module CoverageTestViewModels {
  import opened Sdk

  /** `CoverageTestEvent`. `Connect` is given a serial number but does not keep it. */
  datatype CoverageTestEvent = Start | Stop | Report | Connect | Disconnect | Subscribe

  datatype CoverageTestUiState =
    | Idle
    | Loading(event: CoverageTestEvent)
    | TestProgress(eventTimeMs: int, maxTime: int)
    | InProgress
    | ReportFetched(data: CoverageReport)
    | Connected
    | Disconnected(event: CoverageTestEvent)
    | TestCompleted
    | Failure(event: CoverageTestEvent, exception: Option<Exception>)

  /** The platform count-down timer: its length, its tick interval, and whether it is running. */
  datatype Timer = Timer(millisInFuture: int, countDownInterval: int, running: bool)

  /** The tick interval of the count-down timer, in milliseconds. */
  const TickMillis := 1000

  /** A duration in seconds as milliseconds, computed in 32-bit `Int` and then widened. */
  function DurationMillis(testDurationInSec: int): (ms: int)
    ensures IsInt32(ms)
    ensures IsInt32(testDurationInSec * 1000) ==> ms == testDurationInSec * 1000
  {
    WrapInt32(testDurationInSec * 1000)
  }

  /** Durations of up to 2147483 s are converted exactly; one second more wraps to a negative length. */
  lemma DurationBoundary(d: int)
    ensures -2147483 <= d <= 2147483 ==> DurationMillis(d) == d * 1000
    ensures DurationMillis(2147484) == -2147483296
  {
  }

  /** The timer a test-start event starts. */
  function TimerFor(testDurationInSec: int): Timer {
    Timer(DurationMillis(testDurationInSec), TickMillis, true)
  }

  /**
   * A started test's timer ticks every second and runs for the test's length
   * in milliseconds, exactly when that length fits in 32 bits.
   */
  lemma TimerLength(testDurationInSec: int)
    ensures TimerFor(testDurationInSec).running && TimerFor(testDurationInSec).countDownInterval == 1000
    ensures IsInt32(TimerFor(testDurationInSec).millisInFuture)
    ensures -2147483 <= testDurationInSec <= 2147483 ==>
      TimerFor(testDurationInSec).millisInFuture == testDurationInSec * 1000
  {
    DurationBoundary(testDurationInSec);
  }

  /**
   * `handleCoverageTestEvent`'s mapping: collecting the report shows
   * `Loading(Report)`, ping, pong and missed-pong events go back to `Idle`,
   * a report is shown, and a test start means the test is in progress.
   */
  function EventState(event: CoverageEvent): (state: CoverageTestUiState)
    ensures event.CollectingReport? <==> state == Loading(Report)
    ensures (event.PingEvent? || event.PongEvent? || event.MissingPongEvent?) <==> state == Idle
    ensures event.TestReportEvent? <==> state.ReportFetched?
    ensures event.TestReportEvent? ==> state == ReportFetched(event.data)
    ensures event.TestStart? <==> state == InProgress
  {
    match event
    case CollectingReport => Loading(Report)
    case PingEvent(_) => Idle
    case PongEvent(_) => Idle
    case MissingPongEvent(_) => Idle
    case TestReportEvent(data) => ReportFetched(data)
    case TestStart(_) => InProgress
  }

  /** The state a running test publishes for one result of the SDK's event flow. */
  function StartOutcome(result: SdkResult<CoverageEvent>): (state: CoverageTestUiState)
    // only a failed result publishes a failure, and it is reported under `Start`
    ensures state.Failure? <==> result.Failure?
    ensures state.Failure? ==> state.event == Start && state.exception == result.exception
    // the test shows as in progress exactly for a successful test-start event
    ensures state == InProgress <==> IsTestStart(result)
  {
    match result
    case Success(event) => EventState(event)
    case Failure(e) => CoverageTestUiState.Failure(Start, e)
  }

  /** The states a started test publishes after its `Loading(Start)`: one per result. */
  function StartTrace(results: seq<SdkResult<CoverageEvent>>): (trace: seq<CoverageTestUiState>)
    ensures |trace| == |results|
    decreases |results|
  {
    if results == [] then []
    else StartTrace(results[..|results| - 1]) + [StartOutcome(results[|results| - 1])]
  }

  /** The i-th state a started test publishes is the outcome of the i-th result. */
  lemma {:induction false} StartTraceAt(results: seq<SdkResult<CoverageEvent>>, i: nat)
    requires i < |results|
    ensures StartTrace(results)[i] == StartOutcome(results[i])
    decreases |results|
  {
    var init := results[..|results| - 1];
    if i < |init| {
      StartTraceAt(init, i);
    }
  }

  predicate IsTestStart(result: SdkResult<CoverageEvent>) {
    result.Success? && result.value.TestStart?
  }

  /** The duration of the last test-start event among the results, if any. */
  function LastTestStart(results: seq<SdkResult<CoverageEvent>>): (d: Option<int>)
    decreases |results|
  {
    if results == [] then None
    else
      var r := results[|results| - 1];
      if IsTestStart(r) then Some(r.value.testDuration)
      else LastTestStart(results[..|results| - 1])
  }

  /** A duration found comes from a test-start result with no test start after it. */
  lemma {:induction false} LastTestStartIsLast(results: seq<SdkResult<CoverageEvent>>)
    ensures LastTestStart(results).Some? ==>
      exists i :: 0 <= i < |results| && results[i] == Success(TestStart(LastTestStart(results).value)) &&
        forall j :: i < j < |results| ==> !IsTestStart(results[j])
    decreases |results|
  {
    if results != [] {
      var init, r := results[..|results| - 1], results[|results| - 1];
      if IsTestStart(r) {
        assert results[|results| - 1] == Success(TestStart(r.value.testDuration));
      } else {
        LastTestStartIsLast(init);
        if LastTestStart(init).Some? {
          var i :| 0 <= i < |init| && init[i] == Success(TestStart(LastTestStart(init).value)) &&
            forall j :: i < j < |init| ==> !IsTestStart(init[j]);
          assert results[i] == init[i];
          forall j | i < j < |results| ensures !IsTestStart(results[j]) {
            if j < |init| {
              assert results[j] == init[j];
            }
          }
        }
      }
    }
  }

  /** One more result of a started test. */
  lemma StartSnoc(results: seq<SdkResult<CoverageEvent>>, r: SdkResult<CoverageEvent>)
    ensures StartTrace(results + [r]) == StartTrace(results) + [StartOutcome(r)]
    ensures LastTestStart(results + [r]) ==
      if IsTestStart(r) then Some(r.value.testDuration) else LastTestStart(results)
  {
    assert (results + [r])[..|results|] == results;
  }

  /** No test-start event among the results: the duration and the timer are left alone. */
  lemma {:induction false} NoTestStart(results: seq<SdkResult<CoverageEvent>>)
    ensures LastTestStart(results).None? <==> forall d :: Success(TestStart(d)) !in results
    decreases |results|
  {
    if results != [] {
      var init := results[..|results| - 1];
      NoTestStart(init);
      assert results == init + [results[|results| - 1]];
    }
  }

  /** The subscription's states: `Idle` per message, or `Failure(Subscribe, e)`. */
  function SubscribeOutcome(result: SdkResult<Message>): (state: CoverageTestUiState)
    ensures result.Success? <==> state == Idle
    ensures result.Failure? ==> state == CoverageTestUiState.Failure(Subscribe, result.exception)
  {
    match result
    case Success(_) => Idle
    case Failure(e) => CoverageTestUiState.Failure(Subscribe, e)
  }

  function SubscribeTrace(results: seq<SdkResult<Message>>): (trace: seq<CoverageTestUiState>)
    ensures |trace| == |results|
    ensures forall i :: 0 <= i < |results| ==> trace[i] == SubscribeOutcome(results[i])
    decreases |results|
  {
    if results == [] then []
    else SubscribeTrace(results[..|results| - 1]) + [SubscribeOutcome(results[|results| - 1])]
  }

  class CoverageTestViewModel {
    var uiState: CoverageTestUiState
    ghost var emitted: seq<CoverageTestUiState>
    var connection: Option<Connection>
    var timer: Option<Timer>
    var totalTestDuration: int
    /** The number of subscriptions launched so far. */
    ghost var subscriptions: nat

    /**
     * The published state is the last one emitted, and the timer, once
     * there is one, is as long as the total test duration.
     */
    ghost predicate Valid()
      reads this
    {
      |emitted| > 0 && uiState == emitted[|emitted| - 1] &&
      (timer.Some? ==> timer.value.millisInFuture == totalTestDuration)
    }

    constructor ()
      ensures Valid()
      ensures emitted == [Idle] && connection == None && timer == None && totalTestDuration == 0
      ensures subscriptions == 0
    {
      uiState := Idle;
      emitted := [Idle];
      connection := None;
      timer := None;
      totalTestDuration := 0;
      subscriptions := 0;
    }

    /** `_uiState.update { state }`. */
    method Publish(state: CoverageTestUiState)
      modifies this`uiState, this`emitted
      ensures uiState == state && emitted == old(emitted) + [state]
    {
      uiState := state;
      emitted := emitted + [state];
    }

    /** `countDownTime`: replace the timer by a new, started one of the given length. */
    method CountDownTime(testDurationInSec: int)
      modifies this`timer
      ensures timer == Some(TimerFor(testDurationInSec))
    {
      timer := Some(Timer(WrapInt32(testDurationInSec * 1000), TickMillis, true));
    }

    /**
     * `handleCoverageTestEvent`: the state for an SDK event; a test-start
     * event also sets the total duration and starts the timer.
     */
    method HandleCoverageTestEvent(event: CoverageEvent) returns (state: CoverageTestUiState)
      requires Valid()
      modifies this`totalTestDuration, this`timer
      ensures Valid()
      ensures state == EventState(event)
      ensures event.TestStart? ==>
        totalTestDuration == DurationMillis(event.testDuration) &&
        timer == Some(TimerFor(event.testDuration))
      ensures !event.TestStart? ==> totalTestDuration == old(totalTestDuration) && timer == old(timer)
    {
      match event {
        case CollectingReport =>
          state := Loading(Report);
        case PingEvent(_) =>
          state := Idle;
        case PongEvent(_) =>
          state := Idle;
        case MissingPongEvent(_) =>
          state := Idle;
        case TestReportEvent(data) =>
          state := ReportFetched(data);
        case TestStart(d) =>
          totalTestDuration := WrapInt32(d * 1000);
          CountDownTime(d);
          state := InProgress;
      }
    }

    /**
     * `startCoverageTest`: with a connection, publish `Loading(Start)` and
     * then one state per result of the SDK's event flow; with none, do
     * nothing. The test parameters go to the SDK only.
     */
    method StartCoverageTest(pingInterval: int, testDuration: int, progressMode: bool,
                             results: seq<SdkResult<CoverageEvent>>)
      requires Valid()
      modifies this
      ensures Valid()
      ensures old(connection).None? ==>
        emitted == old(emitted) && timer == old(timer) && totalTestDuration == old(totalTestDuration)
      ensures old(connection).Some? ==>
        emitted == old(emitted) + [Loading(Start)] + StartTrace(results)
      ensures old(connection).Some? && LastTestStart(results).Some? ==>
        totalTestDuration == DurationMillis(LastTestStart(results).value) &&
        timer == Some(TimerFor(LastTestStart(results).value))
      ensures old(connection).Some? && LastTestStart(results).None? ==>
        totalTestDuration == old(totalTestDuration) && timer == old(timer)
      ensures connection == old(connection) && subscriptions == old(subscriptions)
    {
      if connection.None? {
        return;
      }
      Publish(Loading(Start));
      CollectStartResults(results);
    }

    /** The test flow's `collect`: one state per result, test starts updating the timer. */
    method CollectStartResults(results: seq<SdkResult<CoverageEvent>>)
      requires Valid()
      modifies this`uiState, this`emitted, this`totalTestDuration, this`timer
      ensures Valid()
      ensures emitted == old(emitted) + StartTrace(results)
      ensures LastTestStart(results).Some? ==>
        totalTestDuration == DurationMillis(LastTestStart(results).value) &&
        timer == Some(TimerFor(LastTestStart(results).value))
      ensures LastTestStart(results).None? ==>
        totalTestDuration == old(totalTestDuration) && timer == old(timer)
    {
      for i := 0 to |results|
        invariant Valid()
        invariant emitted == old(emitted) + StartTrace(results[..i])
        invariant LastTestStart(results[..i]).Some? ==>
          totalTestDuration == DurationMillis(LastTestStart(results[..i]).value) &&
          timer == Some(TimerFor(LastTestStart(results[..i]).value))
        invariant LastTestStart(results[..i]).None? ==>
          totalTestDuration == old(totalTestDuration) && timer == old(timer)
      {
        ghost var prev, next := results[..i], results[..i + 1];
        assert next == prev + [results[i]];
        StartSnoc(prev, results[i]);
        CollectStart(results[i]);
      }
      assert results[..|results|] == results;
    }

    /** The test flow's `collect` step for one result. */
    method CollectStart(result: SdkResult<CoverageEvent>)
      requires Valid()
      modifies this`uiState, this`emitted, this`totalTestDuration, this`timer
      ensures Valid()
      ensures emitted == old(emitted) + [StartOutcome(result)]
      ensures result.Success? && result.value.TestStart? ==>
        totalTestDuration == DurationMillis(result.value.testDuration) &&
        timer == Some(TimerFor(result.value.testDuration))
      ensures !(result.Success? && result.value.TestStart?) ==>
        totalTestDuration == old(totalTestDuration) && timer == old(timer)
    {
      var newUiState: CoverageTestUiState;
      match result {
        case Success(event) =>
          newUiState := HandleCoverageTestEvent(event);
        case Failure(e) =>
          newUiState := CoverageTestUiState.Failure(Start, e);
      }
      Publish(newUiState);
    }

    /**
     * `stopCoverageTest`: cancel the timer if there is one; then, with a
     * connection, publish `Loading(Stop)` and `TestCompleted` whatever the
     * SDK's stop call returns.
     */
    method StopCoverageTest()
      requires Valid()
      modifies this
      ensures Valid()
      ensures timer == if old(timer).Some? then Some(old(timer).value.(running := false)) else None
      ensures old(connection).None? ==> emitted == old(emitted)
      ensures old(connection).Some? ==> emitted == old(emitted) + [Loading(Stop), TestCompleted]
      ensures connection == old(connection) && totalTestDuration == old(totalTestDuration)
      ensures subscriptions == old(subscriptions)
    {
      if timer.Some? {
        timer := Some(timer.value.(running := false));
      }
      if connection.Some? {
        Publish(Loading(Stop));
        Publish(TestCompleted);
      }
    }

    /** A tick of the timer: publish the time left and the total duration. */
    method OnTick(millisUntilFinished: int)
      requires Valid()
      modifies this`uiState, this`emitted
      ensures Valid()
      ensures emitted == old(emitted) + [TestProgress(millisUntilFinished, totalTestDuration)]
    {
      Publish(TestProgress(millisUntilFinished, totalTestDuration));
    }

    /** The timer's end: the test is complete. */
    method OnFinish()
      requires Valid()
      modifies this`uiState, this`emitted
      ensures Valid()
      ensures emitted == old(emitted) + [TestCompleted]
    {
      Publish(TestCompleted);
    }

    /**
     * `establishSecureConnect(smsn)`: publish `Loading(Connect)`; on success
     * keep the connection, launch the subscription and publish `Connected`,
     * otherwise publish `Failure(Connect, e)`.
     */
    method EstablishSecureConnect(smsn: string, result: SdkResult<Connection>)
      requires Valid()
      modifies this
      ensures Valid()
      ensures result.Success? ==>
        connection == Some(result.value) && subscriptions == old(subscriptions) + 1 &&
        emitted == old(emitted) + [Loading(Connect), Connected]
      ensures result.Failure? ==>
        connection == old(connection) && subscriptions == old(subscriptions) &&
        emitted == old(emitted) + [Loading(Connect), CoverageTestUiState.Failure(Connect, result.exception)]
      ensures timer == old(timer) && totalTestDuration == old(totalTestDuration)
    {
      Publish(Loading(Connect));
      var newUiState: CoverageTestUiState;
      match result {
        case Success(c) =>
          connection := Some(c);
          subscriptions := subscriptions + 1;
          newUiState := Connected;
        case Failure(e) =>
          newUiState := CoverageTestUiState.Failure(Connect, e);
      }
      Publish(newUiState);
    }

    /**
     * `disconnectSecureConnection`: with a connection, publish
     * `Loading(Disconnect)` and then `Disconnected(Stop)` or
     * `Failure(Disconnect, e)`; with none, do nothing. The connection is
     * kept either way.
     */
    method DisconnectSecureConnection(result: SdkResult<()>)
      requires Valid()
      modifies this
      ensures Valid()
      ensures old(connection).None? ==> emitted == old(emitted)
      ensures old(connection).Some? && result.Success? ==>
        emitted == old(emitted) + [Loading(Disconnect), Disconnected(Stop)]
      ensures old(connection).Some? && result.Failure? ==>
        emitted == old(emitted) + [Loading(Disconnect), CoverageTestUiState.Failure(Disconnect, result.exception)]
      ensures connection == old(connection) && timer == old(timer)
      ensures totalTestDuration == old(totalTestDuration) && subscriptions == old(subscriptions)
    {
      if connection.None? {
        return;
      }
      Publish(Loading(Disconnect));
      var newUiState: CoverageTestUiState;
      match result {
        case Success(_) =>
          newUiState := Disconnected(Stop);
        case Failure(e) =>
          newUiState := CoverageTestUiState.Failure(Disconnect, e);
      }
      Publish(newUiState);
    }

    /**
     * `subscribe`: with a connection, publish `Idle` for each message
     * received and `Failure(Subscribe, e)` for each failure; with none, do
     * nothing.
     */
    method Subscribe(results: seq<SdkResult<Message>>)
      requires Valid()
      modifies this`uiState, this`emitted
      ensures Valid()
      ensures connection.None? ==> emitted == old(emitted)
      ensures connection.Some? ==> emitted == old(emitted) + SubscribeTrace(results)
    {
      if connection.None? {
        return;
      }
      ghost var before := emitted;
      for i := 0 to |results|
        invariant Valid()
        invariant emitted == before + SubscribeTrace(results[..i])
      {
        var prefix := results[..i + 1];
        assert prefix[..i] == results[..i] && prefix[i] == results[i];
        var newUiState: CoverageTestUiState;
        match results[i] {
          case Success(_) =>
            newUiState := Idle;
          case Failure(e) =>
            newUiState := CoverageTestUiState.Failure(CoverageTestEvent.Subscribe, e);
        }
        Publish(newUiState);
      }
      assert results[..|results|] == results;
    }

    /** `onCleared`: drop the connection. */
    method OnCleared()
      modifies this`connection
      ensures connection == None
    {
      connection := None;
    }
  }

  /**
   * Once the view-model is cleared, starting, stopping and disconnecting
   * publish nothing; stopping still cancels the timer.
   */
  method ClearedIsInert(vm: CoverageTestViewModel, results: seq<SdkResult<CoverageEvent>>, disconnect: SdkResult<()>)
    requires vm.Valid()
    modifies vm
    ensures vm.Valid()
    ensures vm.emitted == old(vm.emitted) && vm.connection == None
    ensures vm.totalTestDuration == old(vm.totalTestDuration)
    ensures vm.timer.Some? <==> old(vm.timer).Some?
    ensures vm.timer.Some? ==> !vm.timer.value.running
  {
    vm.OnCleared();
    vm.StartCoverageTest(5, 60, true, results);
    vm.StopCoverageTest();
    vm.DisconnectSecureConnection(disconnect);
  }
}
