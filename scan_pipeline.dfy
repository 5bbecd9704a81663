/**
 * The scan screen end to end: the states `ScanViewModel.scan` publishes,
 * rendered by `ScanFragment` into its two device sections. The view-model
 * publishes the whole accumulated list on every result, duplicates
 * included; the fragment appends each list into its adapters, which keep
 * one entry per endpoint id.
 */
module ScanPipeline {
  import opened Sdk
  import opened KeyedList
  import VM = ScanViewModels
  import opened ScanFragments

  /** The states a scan can publish: the ones the fragment's scan branches render. */
  predicate IsScanState(s: VM.ScanUiState) {
    s == VM.Loading(VM.Scan) || s.Scanned? || (s.Failure? && s.event == VM.Scan)
  }

  /** A scan state as the fragment receives it. */
  function ToFragment(s: VM.ScanUiState): (f: ScanUiState)
    requires IsScanState(s)
    ensures s.Scanned? <==> f.Scanned?
    ensures s.Scanned? ==> f.devices == s.devices
    ensures s.Failure? ==> f == ScanUiState.Failure(Scan, s.exception)
    ensures s.Loading? <==> f == Loading(Scan)
  {
    match s
    case Scanned(devices) => Scanned(devices)
    case Failure(_, e) => ScanUiState.Failure(Scan, e)
    case _ => Loading(Scan)
  }

  /** A sequence of scan states as the fragment receives it. */
  function ToFragmentAll(states: seq<VM.ScanUiState>): (fs: seq<ScanUiState>)
    requires forall s :: s in states ==> IsScanState(s)
    ensures |fs| == |states|
    decreases |states|
  {
    if states == [] then []
    else ToFragmentAll(states[..|states| - 1]) + [ToFragment(states[|states| - 1])]
  }

  /** Receiving one more state. */
  lemma ToFragmentAllSnoc(states: seq<VM.ScanUiState>, s: VM.ScanUiState)
    requires forall t :: t in states ==> IsScanState(t)
    requires IsScanState(s)
    ensures ToFragmentAll(states + [s]) == ToFragmentAll(states) + [ToFragment(s)]
  {
    assert (states + [s])[..|states|] == states;
  }

  /** One more state that is not a rescan, and that extends the last list if it is one. */
  lemma GrowStep(prefix: seq<ScanUiState>, f: ScanUiState)
    requires Growing(prefix) && NoRescan(prefix)
    requires f != Loading(Scan)
    requires f.Scanned? ==> LastScanned(prefix) <= f.devices
    ensures Growing(prefix + [f]) && NoRescan(prefix + [f])
    ensures LastScanned(prefix + [f]) == if f.Scanned? then f.devices else LastScanned(prefix)
  {
    var states := prefix + [f];
    assert states[..|states| - 1] == prefix;
    forall i | 0 <= i < |states| ensures states[i] != Loading(Scan) {
      if i < |prefix| {
        assert states[i] == prefix[i];
      }
    }
  }

  /**
   * What the fragment receives from one scan, after its `Loading(Scan)`, is
   * a run of growing lists with no rescan, and the last list it receives is
   * every device the SDK reported, in arrival order.
   */
  lemma {:induction false} ScanTraceGrows(results: seq<SdkResult<Device>>)
    ensures var states := ToFragmentAll(VM.ScanTrace(results));
      Growing(states) && NoRescan(states) && LastScanned(states) == VM.Successes(results)
    decreases |results|
  {
    if results != [] {
      var init, r := results[..|results| - 1], results[|results| - 1];
      assert results == init + [r];
      ScanTraceGrows(init);
      VM.SuccessesSnoc(init, r);
      var last := VM.ScanOutcome(r, VM.Successes(results));
      ToFragmentAllSnoc(VM.ScanTrace(init), last);
      var prefix, f := ToFragmentAll(VM.ScanTrace(init)), ToFragment(last);
      assert f.Scanned? ==> f.devices == VM.Successes(results) && LastScanned(prefix) <= f.devices;
      GrowStep(prefix, f);
    }
  }

  /**
   * The screen after a complete scan, whatever it showed before, is the
   * last published list routed into empty sections: the repeated
   * deliveries of the growing list leave no trace.
   */
  lemma ScanRenders(lists: DeviceLists, results: seq<SdkResult<Device>>)
    ensures ListsAfterAll(lists, [Loading(Scan)] + ToFragmentAll(VM.ScanTrace(results)))
      == Route(DeviceLists([], []), VM.Successes(results))
  {
    var states := ToFragmentAll(VM.ScanTrace(results));
    ScanTraceGrows(results);
    SessionRestarts(lists, states);
    assert Unique([]);
    GrowingDeliveries(DeviceLists([], []), states);
  }

  /**
   * The screen after a complete scan, whatever it showed before: each
   * section holds exactly the endpoint ids of the reported devices of its
   * mode, each once.
   */
  lemma ScanRendersDeduplicated(lists: DeviceLists, results: seq<SdkResult<Device>>)
    ensures var r := ListsAfterAll(lists, [Loading(Scan)] + ToFragmentAll(VM.ScanTrace(results)));
      r == Route(DeviceLists([], []), VM.Successes(results)) &&
      UniqueLists(r) &&
      (forall k :: k in Keys(r.unregistered) <==>
         exists d :: Success(d) in results && d.mode == Oobe && d.endpointId == k) &&
      (forall k :: k in Keys(r.registered) <==>
         exists d :: Success(d) in results && d.mode == Normal && d.endpointId == k)
  {
    var states := ToFragmentAll(VM.ScanTrace(results));
    ScanTraceGrows(results);
    ScanSession(lists, states);
    VM.SuccessesMembers(results);
  }

  /**
   * The order and contents of the sections after a complete scan: entries
   * stand in the order their endpoint ids were first reported, and each
   * entry is the last report for its id (`Table` keeps the last device per
   * key).
   */
  lemma ScanSectionContents(lists: DeviceLists, results: seq<SdkResult<Device>>)
    ensures var r := ListsAfterAll(lists, [Loading(Scan)] + ToFragmentAll(VM.ScanTrace(results)));
      var oobe := OfMode(VM.Successes(results), Oobe);
      (forall i, j :: 0 <= i < j < |r.unregistered| ==>
         IndexOf(oobe, r.unregistered[i].endpointId) < IndexOf(oobe, r.unregistered[j].endpointId)) &&
      (forall i :: 0 <= i < |r.unregistered| ==>
         r.unregistered[i].endpointId in Table(oobe) && r.unregistered[i] == Table(oobe)[r.unregistered[i].endpointId])
    ensures var r := ListsAfterAll(lists, [Loading(Scan)] + ToFragmentAll(VM.ScanTrace(results)));
      var normal := OfMode(VM.Successes(results), Normal);
      (forall i, j :: 0 <= i < j < |r.registered| ==>
         IndexOf(normal, r.registered[i].endpointId) < IndexOf(normal, r.registered[j].endpointId)) &&
      (forall i :: 0 <= i < |r.registered| ==>
         r.registered[i].endpointId in Table(normal) && r.registered[i] == Table(normal)[r.registered[i].endpointId])
  {
    ScanRendersDeduplicated(lists, results);
    var oobe := OfMode(VM.Successes(results), Oobe);
    var normal := OfMode(VM.Successes(results), Normal);
    FreshRunOrder(oobe);
    FreshRunOrder(normal);
    forall i | 0 <= i < |UpsertAll([], oobe)|
      ensures UpsertAll([], oobe)[i].endpointId in Table(oobe)
      ensures UpsertAll([], oobe)[i] == Table(oobe)[UpsertAll([], oobe)[i].endpointId]
    {
      FreshRunValues(oobe, i);
    }
    forall i | 0 <= i < |UpsertAll([], normal)|
      ensures UpsertAll([], normal)[i].endpointId in Table(normal)
      ensures UpsertAll([], normal)[i] == Table(normal)[UpsertAll([], normal)[i].endpointId]
    {
      FreshRunValues(normal, i);
    }
  }

  /**
   * Sections are per mode, not per id: an id reported first as OOBE and then
   * as Normal during one scan has a row in each section.
   */
  lemma IdInBothSections(lists: DeviceLists, a: Device, b: Device)
    requires a.endpointId == b.endpointId && a.mode == Oobe && b.mode == Normal
    ensures var r := ListsAfterAll(lists, [Loading(Scan)] + ToFragmentAll(VM.ScanTrace([Success(a), Success(b)])));
      a.endpointId in Keys(r.unregistered) && a.endpointId in Keys(r.registered)
  {
    var results := [Success(a), Success(b)];
    ScanRendersDeduplicated(lists, results);
    assert Success(a) in results && Success(b) in results;
  }

  /** The scan list for a success, a failure and a success. */
  lemma TwoReports(first: Device, again: Device)
    ensures VM.Successes([Success(first), SdkResult.Failure(None), Success(again)]) == [first, again]
  {
    var r0, r1, r2 := Success(first), SdkResult.Failure(None), Success(again);
    assert [r0, r1, r2] == [] + [r0] + [r1] + [r2];
    VM.SuccessesSnoc([], r0);
    VM.SuccessesSnoc([] + [r0], r1);
    VM.SuccessesSnoc([] + [r0] + [r1], r2);
  }

  /** Appending a device after one with the same endpoint id overwrites it. */
  lemma SameKeyRun(first: Device, again: Device)
    requires first.endpointId == again.endpointId
    ensures UpsertAll([], [first, again]) == [again]
  {
    assert [first] + [again] == [first, again];
    UpsertAllSnoc([], [first], again);
    SingleRun(first);
    OverwriteSingle(first, again);
  }

  /** Filtering two OOBE reports by mode. */
  lemma TwoOobe(first: Device, again: Device)
    requires first.mode == Oobe && again.mode == Oobe
    ensures OfMode([first, again], Oobe) == [first, again] && OfMode([first, again], Normal) == []
  {
    OfModePair(first, again, Oobe);
    OfModePair(first, again, Normal);
  }

  /** Two OOBE reports with the same endpoint id leave one entry, the later one. */
  lemma SameKeyTwice(first: Device, again: Device)
    requires first.mode == Oobe && again.mode == Oobe && first.endpointId == again.endpointId
    ensures Route(DeviceLists([], []), [first, again]) == DeviceLists([again], [])
  {
    TwoOobe(first, again);
    SameKeyRun(first, again);
  }

  /**
   * A device reported twice during one scan, first as OOBE and then with a
   * new signal strength, appears once in the unregistered section, with the
   * later reading.
   */
  lemma RepeatedReport()
    ensures
      var first := Device("BAC688BC1F", "nordic-dk1", -40, Oobe, "");
      var again := Device("BAC688BC1F", "nordic-dk1", -12, Oobe, "");
      var results := [Success(first), SdkResult.Failure(None), Success(again)];
      ListsAfterAll(DeviceLists([], []), [Loading(Scan)] + ToFragmentAll(VM.ScanTrace(results)))
        == DeviceLists([again], [])
  {
    var first := Device("BAC688BC1F", "nordic-dk1", -40, Oobe, "");
    var again := Device("BAC688BC1F", "nordic-dk1", -12, Oobe, "");
    ScanRenders(DeviceLists([], []), [Success(first), SdkResult.Failure(None), Success(again)]);
    TwoReports(first, again);
    SameKeyTwice(first, again);
  }
}
