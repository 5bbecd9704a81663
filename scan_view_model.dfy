/**
 * `ScanViewModel`: runs a scan or a registration through the SDK and
 * publishes one UI state per SDK result. Each launched coroutine is modelled
 * as one atomic step over the sequence of results the SDK's flow delivered.
 * `emitted` records every value the UI-state flow has held, the initial one
 * first.
 */
module ScanViewModels {
  import opened Sdk

  datatype ScanEvent = Scan | Register(device: Device)

  /** The `message` each event carries. */
  function EventMessage(event: ScanEvent): (m: string)
    ensures event.Scan? <==> m == "Scan"
    ensures event.Register? <==> m == "Register"
  {
    match event
    case Scan => "Scan"
    case Register(_) => "Register"
  }

  datatype ScanUiState =
    | Idle
    | Loading(event: ScanEvent)
    | Scanned(devices: seq<Device>)
    | Registered(wirelessDeviceId: string, sidewalkId: string)
    | Failure(event: ScanEvent, exception: Option<Exception>)

  /** A launched coroutine, told apart by the order it was launched in. */
  datatype Job = Job(id: nat)

  /** The devices a scan accumulates: every successful result, in arrival order. */
  function Successes(results: seq<SdkResult<Device>>): (devices: seq<Device>)
    ensures |devices| <= |results|
    decreases |results|
  {
    if results == [] then []
    else
      var init, r := results[..|results| - 1], results[|results| - 1];
      if r.Success? then Successes(init) + [r.value] else Successes(init)
  }

  /** The accumulated list holds a device iff some result delivered it successfully. */
  lemma {:induction false} SuccessesMembers(results: seq<SdkResult<Device>>)
    ensures forall d :: d in Successes(results) <==> Success(d) in results
    decreases |results|
  {
    if results != [] {
      var init, r := results[..|results| - 1], results[|results| - 1];
      assert results == init + [r];
      SuccessesMembers(init);
    }
  }

  /** The state a scan publishes for one result, given the devices accumulated so far. */
  function ScanOutcome(result: SdkResult<Device>, scanList: seq<Device>): ScanUiState {
    match result
    case Success(_) => Scanned(scanList)
    case Failure(e) => ScanUiState.Failure(ScanEvent.Scan, e)
  }

  /** The states a scan publishes after its `Loading(Scan)`: one per result. */
  function ScanTrace(results: seq<SdkResult<Device>>): (trace: seq<ScanUiState>)
    ensures |trace| == |results|
    ensures forall s :: s in trace ==> s.Scanned? || (s.Failure? && s.event == Scan)
    decreases |results|
  {
    if results == [] then []
    else
      var init, r := results[..|results| - 1], results[|results| - 1];
      ScanTrace(init) + [ScanOutcome(r, Successes(results))]
  }

  /** One more result of a scan. */
  lemma SuccessesSnoc(results: seq<SdkResult<Device>>, r: SdkResult<Device>)
    ensures Successes(results + [r]) == if r.Success? then Successes(results) + [r.value] else Successes(results)
    ensures ScanTrace(results + [r]) == ScanTrace(results) + [ScanOutcome(r, Successes(results + [r]))]
  {
    assert (results + [r])[..|results|] == results;
  }

  /**
   * The i-th state a scan publishes: a success adds exactly its device at
   * the end of the list and publishes the whole list (no deduplication); a
   * failure publishes `Failure(Scan, e)` and leaves the list as it was.
   */
  lemma {:induction false} ScanTraceAt(results: seq<SdkResult<Device>>, i: nat)
    requires i < |results|
    ensures results[i].Success? ==>
      Successes(results[..i + 1]) == Successes(results[..i]) + [results[i].value] &&
      ScanTrace(results)[i] == Scanned(Successes(results[..i + 1]))
    ensures results[i].Failure? ==>
      Successes(results[..i + 1]) == Successes(results[..i]) &&
      ScanTrace(results)[i] == ScanUiState.Failure(ScanEvent.Scan, results[i].exception)
    decreases |results|
  {
    var init := results[..|results| - 1];
    assert results[..i + 1][..i] == results[..i];
    if i < |results| - 1 {
      ScanTraceAt(init, i);
      assert init[..i + 1] == results[..i + 1] && init[..i] == results[..i];
    } else {
      assert results[..i + 1] == results;
    }
  }

  /** The list published at an earlier result is a prefix of any later one. */
  lemma {:induction false} SuccessesGrow(results: seq<SdkResult<Device>>, i: nat, j: nat)
    requires i <= j <= |results|
    ensures Successes(results[..i]) <= Successes(results[..j])
    decreases j - i
  {
    if i < j {
      SuccessesGrow(results, i, j - 1);
      var prefix := results[..j];
      assert prefix[..|prefix| - 1] == results[..j - 1];
      assert Successes(results[..j - 1]) <= Successes(prefix);
    }
  }

  /** The states a registration publishes after its `Loading`: one per result. */
  function RegisterTrace(device: Device, results: seq<SdkResult<Registration>>): (trace: seq<ScanUiState>)
    ensures |trace| == |results|
    ensures forall i :: 0 <= i < |results| && results[i].Success? ==>
      trace[i] == Registered(results[i].value.wirelessDeviceId, results[i].value.sidewalkId)
    ensures forall i :: 0 <= i < |results| && results[i].Failure? ==>
      trace[i] == ScanUiState.Failure(ScanEvent.Register(device), results[i].exception)
    decreases |results|
  {
    if results == [] then []
    else
      var init, r := results[..|results| - 1], results[|results| - 1];
      var state := match r
        case Success(reg) => Registered(reg.wirelessDeviceId, reg.sidewalkId)
        case Failure(e) => ScanUiState.Failure(ScanEvent.Register(device), e);
      RegisterTrace(device, init) + [state]
  }

  class ScanViewModel {
    var uiState: ScanUiState
    ghost var emitted: seq<ScanUiState>
    var scanList: seq<Device>
    var scanJob: Option<Job>
    var registerJob: Option<Job>
    /** Jobs cancelled so far, in order. */
    var cancelled: seq<Job>
    var nextJobId: nat

    ghost predicate Valid()
      reads this
    {
      |emitted| > 0 && uiState == emitted[|emitted| - 1]
    }

    constructor ()
      ensures Valid() && uiState == Idle && emitted == [Idle]
      ensures scanList == [] && scanJob == None && registerJob == None && cancelled == []
    {
      uiState := Idle;
      emitted := [Idle];
      scanList := [];
      scanJob := None;
      registerJob := None;
      cancelled := [];
      nextJobId := 0;
    }

    /** `_uiState.update { state }`. */
    method Publish(state: ScanUiState)
      modifies this`uiState, this`emitted
      ensures uiState == state && emitted == old(emitted) + [state]
    {
      uiState := state;
      emitted := emitted + [state];
    }

    method Launch() returns (job: Job)
      modifies this`nextJobId
      ensures job == Job(old(nextJobId)) && nextJobId == old(nextJobId) + 1
    {
      job := Job(nextJobId);
      nextJobId := nextJobId + 1;
    }

    /**
     * `scan(force)`: a forced scan first cancels the running scan job. The
     * scan then empties the accumulated list, publishes `Loading(Scan)` and
     * one state per result delivered by the SDK.
     */
    method Scan(force: bool, results: seq<SdkResult<Device>>)
      requires Valid()
      modifies this
      ensures Valid()
      ensures cancelled == old(cancelled) + (if force && old(scanJob).Some? then [old(scanJob).value] else [])
      ensures scanJob == Some(Job(old(nextJobId)))
      ensures registerJob == old(registerJob)
      ensures scanList == Successes(results)
      ensures emitted == old(emitted) + [Loading(ScanEvent.Scan)] + ScanTrace(results)
    {
      if force {
        CancelScan();
      }
      var job := Launch();
      scanJob := Some(job);
      // reset the scanning list first
      scanList := [];
      Publish(Loading(ScanEvent.Scan));
      CollectScanResults(results);
    }

    /** The scan flow's `collect`, from an emptied list: one state per result. */
    method CollectScanResults(results: seq<SdkResult<Device>>)
      requires Valid() && scanList == []
      modifies this`scanList, this`uiState, this`emitted
      ensures Valid()
      ensures scanList == Successes(results)
      ensures emitted == old(emitted) + ScanTrace(results)
    {
      for i := 0 to |results|
        invariant Valid()
        invariant scanList == Successes(results[..i])
        invariant emitted == old(emitted) + ScanTrace(results[..i])
      {
        ghost var prev, next := results[..i], results[..i + 1];
        assert next == prev + [results[i]];
        SuccessesSnoc(prev, results[i]);
        CollectScan(results[i]);
      }
      assert results[..|results|] == results;
    }

    /** The scan flow's `collect` step for one result. */
    method CollectScan(result: SdkResult<Device>)
      requires Valid()
      modifies this`scanList, this`uiState, this`emitted
      ensures Valid()
      ensures scanList == if result.Success? then old(scanList) + [result.value] else old(scanList)
      ensures emitted == old(emitted) + [ScanOutcome(result, scanList)]
    {
      var newUiState: ScanUiState;
      match result {
        case Success(device) =>
          scanList := scanList + [device];
          newUiState := Scanned(scanList);
        case Failure(e) =>
          newUiState := ScanUiState.Failure(ScanEvent.Scan, e);
      }
      Publish(newUiState);
    }

    /**
     * `register(device)`: publishes `Loading(Register(device))`, then one
     * state per result of the SDK's registration flow.
     */
    method Register(device: Device, results: seq<SdkResult<Registration>>)
      requires Valid()
      modifies this
      ensures Valid()
      ensures registerJob == Some(Job(old(nextJobId)))
      ensures emitted == old(emitted) + [Loading(ScanEvent.Register(device))] + RegisterTrace(device, results)
      ensures unchanged(this`scanList, this`scanJob, this`cancelled)
    {
      var job := Launch();
      registerJob := Some(job);
      Publish(Loading(ScanEvent.Register(device)));
      ghost var before := emitted;
      for i := 0 to |results|
        invariant Valid()
        invariant emitted == before + RegisterTrace(device, results[..i])
        invariant registerJob == Some(Job(old(nextJobId)))
        invariant unchanged(this`scanList, this`scanJob, this`cancelled)
      {
        var prefix := results[..i + 1];
        assert prefix[..i] == results[..i] && prefix[i] == results[i];
        var newUiState: ScanUiState;
        match results[i] {
          case Success(reg) =>
            newUiState := Registered(reg.wirelessDeviceId, reg.sidewalkId);
          case Failure(e) =>
            newUiState := ScanUiState.Failure(ScanEvent.Register(device), e);
        }
        Publish(newUiState);
      }
      assert results[..|results|] == results;
    }

    /** `cancelScan`: cancel the scan job, if any, and forget it. */
    method CancelScan()
      modifies this`scanJob, this`cancelled
      ensures scanJob == None
      ensures cancelled == old(cancelled) + (if old(scanJob).Some? then [old(scanJob).value] else [])
    {
      if scanJob.Some? {
        cancelled := cancelled + [scanJob.value];
      }
      scanJob := None;
    }

    /** `cancelRegister`: cancel the registration job, if any, and forget it. */
    method CancelRegister()
      modifies this`registerJob, this`cancelled
      ensures registerJob == None
      ensures cancelled == old(cancelled) + (if old(registerJob).Some? then [old(registerJob).value] else [])
    {
      if registerJob.Some? {
        cancelled := cancelled + [registerJob.value];
      }
      registerJob := None;
    }
  }
}
