/**
 * `ScanFragment`: the dashboard that lists scanned devices in two sections,
 * unregistered (OOBE) devices above registered (Normal) ones, each section
 * backed by its own `DeviceAdapter`. The fragment renders the scan
 * view-model's states and forwards user actions to the view-model or to
 * navigation.
 *
 * This file was written against a different version of the view-model than
 * the one modelled in `ScanViewModels`: here a register event names a serial
 * number and a `Registered` state carries a registration detail. The types
 * below follow this file.
 */
module ScanFragments {
  import opened Sdk
  import opened KeyedList
  import opened DeviceAdapters

  /** `RegistrationDetail` as this file matches on it. */
  datatype RegistrationDetail = RegistrationSucceeded | AlreadyRegistered

  /** `ScanEvent` as this file uses it. */
  datatype ScanEvent = Scan | Register(smsn: string)

  /** `ScanUiState` as this file matches on it. */
  datatype ScanUiState =
    | Idle
    | Loading(event: ScanEvent)
    | Scanned(devices: seq<Device>)
    | Registered(registrationDetail: RegistrationDetail)
    | Failure(event: ScanEvent, exception: Option<Exception>)

  /** Calls the fragment makes on its view-model. */
  datatype ScanRequest =
    | ScanDevices(force: bool)
    | CancelScan
    | RegisterDevice(smsn: string)

  /** Navigation targets the fragment opens. */
  datatype Destination =
    | ConnectionView(registered: bool, smsn: string)
    | CoverageTestStart(smsn: string)

  /** The toolbar item and the popup-menu items the fragment reacts to. */
  datatype MenuItem =
    | Refresh
    | OobeSecureChannel
    | NormalSecureChannel
    | OobeRegister
    | CoverageTest
    | OtherItem(id: int)

  datatype ProgressDialog = ProgressDialog(message: string, showing: bool)

  datatype Alert = Alert(title: string, message: string)

  /** The title of the register dialogs, the app's `register` string resource (its text is not modelled). */
  const RegisterTitle: string

  /** The contents of the two device sections. */
  datatype DeviceLists = DeviceLists(unregistered: seq<Device>, registered: seq<Device>)

  /** The rows on screen: a header row above each section. */
  function RowCount(lists: DeviceLists): nat {
    1 + |lists.unregistered| + 1 + |lists.registered|
  }

  /** The devices of `ds` in one mode, in their order. */
  function OfMode(ds: seq<Device>, mode: DeviceMode): (r: seq<Device>)
    ensures |r| <= |ds|
    ensures forall d :: d in r <==> d in ds && d.mode == mode
    decreases |ds|
  {
    if ds == [] then []
    else
      var init, d := ds[..|ds| - 1], ds[|ds| - 1];
      assert ds == init + [d];
      if d.mode == mode then OfMode(init, mode) + [d] else OfMode(init, mode)
  }

  /** Filtering a list with one more device. */
  lemma OfModeSnoc(ds: seq<Device>, d: Device, mode: DeviceMode)
    ensures OfMode(ds + [d], mode) == if d.mode == mode then OfMode(ds, mode) + [d] else OfMode(ds, mode)
  {
    assert (ds + [d])[..|ds|] == ds;
  }

  lemma {:induction false} OfModeKeys(ds: seq<Device>, mode: DeviceMode, k: string)
    ensures k in Keys(OfMode(ds, mode)) <==> exists d :: d in ds && d.mode == mode && d.endpointId == k
  {
    var r := OfMode(ds, mode);
    if k in Keys(r) {
      var i :| 0 <= i < |r| && Keys(r)[i] == k;
      assert r[i] in ds;
    }
    if exists d :: d in ds && d.mode == mode && d.endpointId == k {
      var d :| d in ds && d.mode == mode && d.endpointId == k;
      var i :| 0 <= i < |r| && r[i] == d;
      assert Keys(r)[i] == k;
    }
  }

  /** Filtering a longer scan list extends the filtered shorter one. */
  lemma {:induction false} OfModePrefix(p: seq<Device>, q: seq<Device>, mode: DeviceMode)
    requires p <= q
    ensures OfMode(p, mode) <= OfMode(q, mode)
    decreases |q|
  {
    if |p| < |q| {
      var init := q[..|q| - 1];
      assert p <= init;
      OfModePrefix(p, init, mode);
    } else {
      assert p == q;
    }
  }

  /** What a `Scanned(devices)` state does to the two sections. */
  function Route(lists: DeviceLists, devices: seq<Device>): DeviceLists {
    DeviceLists(
      UpsertAll(lists.unregistered, OfMode(devices, Oobe)),
      UpsertAll(lists.registered, OfMode(devices, Normal)))
  }

  /** The two sections after one state: only `Loading(Scan)` and `Scanned` touch them. */
  function ListsAfter(lists: DeviceLists, state: ScanUiState): DeviceLists {
    match state
    case Loading(Scan) => DeviceLists([], [])
    case Scanned(devices) => Route(lists, devices)
    case _ => lists
  }

  /** The two sections after a sequence of states, in order. */
  function ListsAfterAll(lists: DeviceLists, states: seq<ScanUiState>): DeviceLists
    decreases |states|
  {
    if states == [] then lists
    else ListsAfter(ListsAfterAll(lists, states[..|states| - 1]), states[|states| - 1])
  }

  ghost predicate UniqueLists(lists: DeviceLists) {
    Unique(lists.unregistered) && Unique(lists.registered)
  }

  /**
   * A `Scanned` state sends a device key to the unregistered section iff some
   * device with that key is OOBE, to the registered section iff some device
   * with that key is Normal; devices of other modes go to neither.
   */
  lemma ScannedRouting(lists: DeviceLists, devices: seq<Device>, k: string)
    ensures k in Keys(Route(lists, devices).unregistered) <==>
      k in Keys(lists.unregistered) || exists d :: d in devices && d.mode == Oobe && d.endpointId == k
    ensures k in Keys(Route(lists, devices).registered) <==>
      k in Keys(lists.registered) || exists d :: d in devices && d.mode == Normal && d.endpointId == k
  {
    UpsertAllKeys(lists.unregistered, OfMode(devices, Oobe));
    UpsertAllKeys(lists.registered, OfMode(devices, Normal));
    OfModeKeys(devices, Oobe, k);
    OfModeKeys(devices, Normal, k);
  }

  /** The devices of the last `Scanned` state in `states`, or none. */
  function LastScanned(states: seq<ScanUiState>): seq<Device>
    decreases |states|
  {
    if states == [] then []
    else if states[|states| - 1].Scanned? then states[|states| - 1].devices
    else LastScanned(states[..|states| - 1])
  }

  /** Each `Scanned` state extends the devices of the `Scanned` state before it. */
  ghost predicate Growing(states: seq<ScanUiState>)
    decreases |states|
  {
    states == [] ||
    (Growing(states[..|states| - 1]) &&
     (states[|states| - 1].Scanned? ==> LastScanned(states[..|states| - 1]) <= states[|states| - 1].devices))
  }

  /** No state in `states` starts a new scan. */
  ghost predicate NoRescan(states: seq<ScanUiState>) {
    forall i :: 0 <= i < |states| ==> states[i] != Loading(Scan)
  }

  /**
   * Delivering growing scan lists (with any failures or other states in
   * between, but no new scan) leaves the sections as if only the last list
   * had been delivered: the fragment's re-appending of every device on every
   * result is harmless because `append` is idempotent.
   */
  lemma {:induction false} GrowingDeliveries(lists: DeviceLists, states: seq<ScanUiState>)
    requires UniqueLists(lists)
    requires Growing(states) && NoRescan(states)
    ensures ListsAfterAll(lists, states) == Route(lists, LastScanned(states))
    decreases |states|
  {
    if states == [] {
    } else {
      var init, s := states[..|states| - 1], states[|states| - 1];
      assert NoRescan(init) by {
        forall i | 0 <= i < |init| ensures init[i] != Loading(Scan) {
          assert init[i] == states[i];
        }
      }
      GrowingDeliveries(lists, init);
      var p := LastScanned(init);
      assert s != Loading(Scan) by {
        assert states[|states| - 1] == s;
      }
      if s.Scanned? {
        var q := s.devices;
        OfModePrefix(p, q, Oobe);
        OfModePrefix(p, q, Normal);
        UpsertAllExtends(lists.unregistered, OfMode(p, Oobe), OfMode(q, Oobe));
        UpsertAllExtends(lists.registered, OfMode(p, Normal), OfMode(q, Normal));
      }
    }
  }

  /**
   * A scan session, a `Loading(Scan)` followed by growing scan lists, leaves
   * each section with one entry per endpoint id of its mode, in the order
   * the ids were first seen, each entry the latest device seen with its id.
   */
  lemma ScanSession(lists: DeviceLists, states: seq<ScanUiState>)
    requires Growing(states) && NoRescan(states)
    ensures ListsAfterAll(lists, [Loading(Scan)] + states) ==
      Route(DeviceLists([], []), LastScanned(states))
    ensures var r := ListsAfterAll(lists, [Loading(Scan)] + states);
      UniqueLists(r) &&
      (forall k :: k in Keys(r.unregistered) <==>
         exists d :: d in LastScanned(states) && d.mode == Oobe && d.endpointId == k) &&
      (forall k :: k in Keys(r.registered) <==>
         exists d :: d in LastScanned(states) && d.mode == Normal && d.endpointId == k)
  {
    var all := [Loading(Scan)] + states;
    var empty := DeviceLists([], []);
    assert Unique([]);
    assert ListsAfterAll(lists, all) == ListsAfterAll(empty, states) by {
      SessionRestarts(lists, states);
    }
    GrowingDeliveries(empty, states);
    var r := Route(empty, LastScanned(states));
    FreshRunKeys(OfMode(LastScanned(states), Oobe));
    FreshRunKeys(OfMode(LastScanned(states), Normal));
    forall k
      ensures (k in Keys(r.unregistered) <==>
         exists d :: d in LastScanned(states) && d.mode == Oobe && d.endpointId == k)
      ensures (k in Keys(r.registered) <==>
         exists d :: d in LastScanned(states) && d.mode == Normal && d.endpointId == k)
    {
      ScannedRouting(empty, LastScanned(states), k);
    }
  }

  /**
   * The size of the screen after a scan session: one row per distinct
   * endpoint id of each mode in the last list, and the two header rows.
   */
  lemma SessionRowCount(lists: DeviceLists, states: seq<ScanUiState>)
    requires Growing(states) && NoRescan(states)
    ensures RowCount(ListsAfterAll(lists, [Loading(Scan)] + states)) ==
      |set d | d in LastScanned(states) && d.mode == Oobe :: d.endpointId| +
      |set d | d in LastScanned(states) && d.mode == Normal :: d.endpointId| + 2
  {
    ScanSession(lists, states);
    var r := ListsAfterAll(lists, [Loading(Scan)] + states);
    SectionCount(r.unregistered, LastScanned(states), Oobe);
    SectionCount(r.registered, LastScanned(states), Normal);
  }

  /** A section with unique keys, exactly the ids of one mode in `ds`, has one entry per such id. */
  lemma SectionCount(section: seq<Device>, ds: seq<Device>, mode: DeviceMode)
    requires Unique(section)
    requires forall k :: k in Keys(section) <==> exists d :: d in ds && d.mode == mode && d.endpointId == k
    ensures |section| == |set d | d in ds && d.mode == mode :: d.endpointId|
  {
    UniqueKeyCount(section);
    assert KeySet(section) == set d | d in ds && d.mode == mode :: d.endpointId;
  }

  /** Whatever the sections held, `Loading(Scan)` empties both and the rest follows from there. */
  lemma {:induction false} SessionRestarts(lists: DeviceLists, states: seq<ScanUiState>)
    ensures ListsAfterAll(lists, [Loading(Scan)] + states) == ListsAfterAll(DeviceLists([], []), states)
    decreases |states|
  {
    var all := [Loading(Scan)] + states;
    if states == [] {
      assert all[..0] == [];
    } else {
      assert all[..|all| - 1] == [Loading(Scan)] + states[..|states| - 1];
      SessionRestarts(lists, states[..|states| - 1]);
    }
  }

  /** Appending a single device to an empty section. */
  lemma SingleRun(d: Device)
    ensures UpsertAll([], [d]) == [d]
  {
    UpsertAllSnoc([], [], d);
    assert [] + [d] == [d];
  }

  /** Filtering a one- and a two-device list by mode. */
  lemma OfModePair(a: Device, b: Device, mode: DeviceMode)
    ensures OfMode([a], mode) == if a.mode == mode then [a] else []
    ensures OfMode([a, b], mode) == OfMode([a], mode) + if b.mode == mode then [b] else []
  {
    assert [] + [a] == [a] && [a] + [b] == [a, b];
    OfModeSnoc([], a, mode);
    OfModeSnoc([a], b, mode);
  }

  /** Filtering the launch test's two lists by mode. */
  lemma OneOfEachModes(oobe: Device, normal: Device)
    requires oobe.mode == Oobe && normal.mode == Normal
    ensures OfMode([oobe], Oobe) == [oobe] && OfMode([oobe], Normal) == []
    ensures OfMode([oobe, normal], Oobe) == [oobe] && OfMode([oobe, normal], Normal) == [normal]
  {
    OfModePair(oobe, normal, Oobe);
    OfModePair(oobe, normal, Normal);
  }

  /** Appending a device to a section that holds only that device. */
  lemma RepeatRun(d: Device)
    ensures UpsertAll([d], [d]) == [d]
  {
    SingleRun(d);
    UpsertAllSnoc([], [], d);
    UpsertAllSnoc([d], [], d);
    assert [] + [d] == [d];
    UpsertIdempotent([], d);
  }

  /** Receiving one more state. */
  lemma ListsAfterAllSnoc(lists: DeviceLists, states: seq<ScanUiState>, s: ScanUiState)
    ensures ListsAfterAll(lists, states + [s]) == ListsAfter(ListsAfterAll(lists, states), s)
  {
    assert (states + [s])[..|states|] == states;
  }

  /** The first list of a session, one OOBE device, into empty sections. */
  lemma RouteFirst(oobe: Device)
    requires oobe.mode == Oobe
    ensures Route(DeviceLists([], []), [oobe]) == DeviceLists([oobe], [])
  {
    OfModePair(oobe, oobe, Oobe);
    OfModePair(oobe, oobe, Normal);
    SingleRun(oobe);
  }

  /** The grown list, the same OOBE device and then a Normal one. */
  lemma RouteSecond(oobe: Device, normal: Device)
    requires oobe.mode == Oobe && normal.mode == Normal
    ensures Route(DeviceLists([oobe], []), [oobe, normal]) == DeviceLists([oobe], [normal])
  {
    OneOfEachModes(oobe, normal);
    SingleRun(normal);
    RepeatRun(oobe);
  }

  /** Three states, one after the other. */
  lemma ListsAfterThree(lists: DeviceLists, s0: ScanUiState, s1: ScanUiState, s2: ScanUiState)
    ensures ListsAfterAll(lists, [s0, s1, s2]) == ListsAfter(ListsAfter(ListsAfter(lists, s0), s1), s2)
  {
    assert [s0, s1, s2] == [] + [s0] + [s1] + [s2];
    ListsAfterAllSnoc(lists, [], s0);
    ListsAfterAllSnoc(lists, [] + [s0], s1);
    ListsAfterAllSnoc(lists, [] + [s0] + [s1], s2);
  }

  /**
   * A scan that reports an OOBE device and then a Normal one, seen as the
   * two growing lists, shows each device alone in its section.
   */
  lemma OneOfEach(lists: DeviceLists, oobe: Device, normal: Device)
    requires oobe.mode == Oobe && normal.mode == Normal
    ensures ListsAfterAll(lists, [Loading(Scan), Scanned([oobe]), Scanned([oobe, normal])])
      == DeviceLists([oobe], [normal])
  {
    ListsAfterThree(lists, Loading(Scan), Scanned([oobe]), Scanned([oobe, normal]));
    RouteFirst(oobe);
    RouteSecond(oobe, normal);
  }

  /**
   * The layout the fragment's launch test expects: the scan reports the OOBE
   * device "BAC688BC1F" and then the Normal device "BFFFFFFB88", the
   * fragment sees the growing lists, and the screen has four rows, one
   * device under each header.
   */
  lemma LaunchLayout(lists: DeviceLists)
    ensures
      var oobe := Device("BAC688BC1F", "nordic-dk1", -10, Oobe, "");
      var normal := Device("BFFFFFFB88", "fetch2", -13, Normal, "");
      var r := ListsAfterAll(lists, [Loading(Scan), Scanned([oobe]), Scanned([oobe, normal])]);
      r == DeviceLists([oobe], [normal]) && RowCount(r) == 4
  {
    OneOfEach(lists, Device("BAC688BC1F", "nordic-dk1", -10, Oobe, ""),
      Device("BFFFFFFB88", "fetch2", -13, Normal, ""));
  }

  /** The text of an alert for a failure: the exception's message, or "null". */
  function FailureMessage(exception: Option<Exception>): string {
    match exception
    case Some(Exception(Some(text))) => text
    case _ => "null"
  }

  function Dismissed(dialog: Option<ProgressDialog>): Option<ProgressDialog> {
    match dialog
    case Some(d) => Some(d.(showing := false))
    case None => None
  }

  class ScanFragment {
    const unregisterDeviceAdapter: DeviceAdapter
    const registerDeviceAdapter: DeviceAdapter
    var progressDialog: Option<ProgressDialog>
    var scanningStatus: string
    var alerts: seq<Alert>
    var requests: seq<ScanRequest>
    var navigations: seq<Destination>

    ghost predicate Valid()
      reads this
    {
      unregisterDeviceAdapter != registerDeviceAdapter
    }

    /** What the two sections show. */
    function Lists(): DeviceLists
      reads this, unregisterDeviceAdapter, registerDeviceAdapter
    {
      DeviceLists(unregisterDeviceAdapter.dataSet, registerDeviceAdapter.dataSet)
    }

    constructor ()
      ensures Valid() && fresh(unregisterDeviceAdapter) && fresh(registerDeviceAdapter)
      ensures Lists() == DeviceLists([], [])
      ensures progressDialog == None && alerts == [] && requests == [] && navigations == []
    {
      unregisterDeviceAdapter := new DeviceAdapter();
      registerDeviceAdapter := new DeviceAdapter();
      progressDialog := None;
      scanningStatus := "";
      alerts := [];
      requests := [];
      navigations := [];
    }

    /** `onStart` starts an unforced scan; `onStop` cancels it. */
    method OnStart()
      modifies this
      ensures requests == old(requests) + [ScanDevices(false)]
      ensures unchanged(this`progressDialog, this`alerts, this`navigations, this`scanningStatus)
    {
      requests := requests + [ScanDevices(false)];
    }

    method OnStop()
      modifies this
      ensures requests == old(requests) + [CancelScan]
      ensures unchanged(this`progressDialog, this`alerts, this`navigations, this`scanningStatus)
    {
      requests := requests + [CancelScan];
    }

    /** `onOptionsItemSelected`: the refresh item forces a rescan and is handled. */
    method OnOptionsItemSelected(item: MenuItem) returns (handled: bool)
      modifies this
      ensures handled <==> item == Refresh
      ensures requests == old(requests) + (if item == Refresh then [ScanDevices(true)] else [])
      ensures unchanged(this`progressDialog, this`alerts, this`navigations, this`scanningStatus)
    {
      if item == Refresh {
        requests := requests + [ScanDevices(true)];
        handled := true;
      } else {
        handled := false;
      }
    }

    /**
     * `actionPerformOnDevice`: a popup-menu choice on a device. Opening the
     * secure channel passes `registered = true` exactly for Normal devices.
     */
    method ActionPerformOnDevice(device: Device, item: MenuItem)
      modifies this
      ensures item in {OobeSecureChannel, NormalSecureChannel} ==>
        navigations == old(navigations) + [ConnectionView(device.mode == Normal, device.truncatedSmsn)] &&
        requests == old(requests)
      ensures item == OobeRegister ==>
        requests == old(requests) + [RegisterDevice(device.truncatedSmsn)] && navigations == old(navigations)
      ensures item == CoverageTest ==>
        navigations == old(navigations) + [CoverageTestStart(device.truncatedSmsn)] && requests == old(requests)
      ensures item !in {OobeSecureChannel, NormalSecureChannel, OobeRegister, CoverageTest} ==>
        navigations == old(navigations) && requests == old(requests)
      ensures unchanged(this`progressDialog, this`alerts, this`scanningStatus)
    {
      match item
      case OobeSecureChannel | NormalSecureChannel =>
        var isRegister := device.mode == Normal;
        navigations := navigations + [ConnectionView(isRegister, device.truncatedSmsn)];
      case OobeRegister =>
        requests := requests + [RegisterDevice(device.truncatedSmsn)];
      case CoverageTest =>
        navigations := navigations + [CoverageTestStart(device.truncatedSmsn)];
      case _ =>
    }

    /** `handleUiState`: render one state of the scan view-model. */
    method HandleUiState(uiState: ScanUiState)
      requires Valid()
      modifies this, unregisterDeviceAdapter, registerDeviceAdapter
      ensures Valid()
      ensures Lists() == ListsAfter(old(Lists()), uiState)
      ensures scanningStatus ==
        match uiState
        case Loading(Scan) => "Scanning On"
        case Failure(Scan, _) => "Scanning Off"
        case _ => old(scanningStatus)
      ensures requests == old(requests) + (if uiState.Registered? then [ScanDevices(true)] else [])
      ensures alerts == old(alerts) +
        match uiState
        case Registered(RegistrationSucceeded) => [Alert(RegisterTitle, "Registration succeeded.")]
        case Registered(AlreadyRegistered) => [Alert(RegisterTitle, "Already registered.")]
        case Failure(Scan, e) => [Alert("Scan failed", FailureMessage(e))]
        case Failure(Register(_), e) => [Alert("Register failed", FailureMessage(e))]
        case _ => []
      ensures progressDialog ==
        match uiState
        case Loading(Register(smsn)) => Some(ProgressDialog("Action " + smsn, true))
        case Registered(_) | Failure(_, _) => Dismissed(old(progressDialog))
        case _ => old(progressDialog)
      ensures navigations == old(navigations)
    {
      match uiState
      case Idle =>
      case Loading(Scan) =>
        scanningStatus := "Scanning On";
        unregisterDeviceAdapter.Reset();
        registerDeviceAdapter.Reset();
      case Loading(Register(smsn)) =>
        progressDialog := Dismissed(progressDialog);
        progressDialog := Some(ProgressDialog("Action " + smsn, true));
      case Scanned(devices) =>
        ShowDevices(devices);
      case Registered(detail) =>
        progressDialog := Dismissed(progressDialog);
        match detail {
          case RegistrationSucceeded =>
            alerts := alerts + [Alert(RegisterTitle, "Registration succeeded.")];
          case AlreadyRegistered =>
            alerts := alerts + [Alert(RegisterTitle, "Already registered.")];
        }
        // re-scan devices
        requests := requests + [ScanDevices(true)];
      case Failure(event, exception) =>
        progressDialog := Dismissed(progressDialog);
        var message := FailureMessage(exception);
        match event {
          case Scan =>
            scanningStatus := "Scanning Off";
            alerts := alerts + [Alert("Scan failed", message)];
          case Register(_) =>
            alerts := alerts + [Alert("Register failed", message)];
        }
    }

    /** The `Scanned` branch: append every device to the section of its mode. */
    method ShowDevices(devices: seq<Device>)
      requires Valid()
      modifies unregisterDeviceAdapter, registerDeviceAdapter
      ensures Lists() == Route(old(Lists()), devices)
    {
      for i := 0 to |devices|
        invariant unregisterDeviceAdapter.dataSet ==
          UpsertAll(old(unregisterDeviceAdapter.dataSet), OfMode(devices[..i], Oobe))
        invariant registerDeviceAdapter.dataSet ==
          UpsertAll(old(registerDeviceAdapter.dataSet), OfMode(devices[..i], Normal))
      {
        var device := devices[i];
        assert devices[..i + 1] == devices[..i] + [device];
        OfModeSnoc(devices[..i], device, Oobe);
        OfModeSnoc(devices[..i], device, Normal);
        if device.mode == Oobe {
          UpsertAllSnoc(old(unregisterDeviceAdapter.dataSet), OfMode(devices[..i], Oobe), device);
          unregisterDeviceAdapter.Append(device);
        } else if device.mode == Normal {
          UpsertAllSnoc(old(registerDeviceAdapter.dataSet), OfMode(devices[..i], Normal), device);
          registerDeviceAdapter.Append(device);
        }
      }
      assert devices[..|devices|] == devices;
    }
  }
}
