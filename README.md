# Amazon Sidewalk Android sample app: a Dafny model of its scan, connection, account and coverage-test core

The sample app drives the closed Sidewalk mobile SDK through four Android
view-models and shows their states in fragments. This project models, in
Dafny, the app-side logic around those SDK calls:

- **`DeviceAdapter`** (`device_adapter.dfy`, with the list theory in
  `keyed_list.dfy`): a mutable device list whose `append` overwrites the
  entry with the same `endpointId` in place or adds the device at the end.
- **`ScanFragment`** (`scan_fragment.dfy`): renders scan states into two
  adapters, unregistered (OOBE) devices above registered (Normal) ones, and
  turns menu choices into view-model requests and navigation.
- **`ScanViewModel`** (`scan_view_model.dfy`): clears its scan list,
  publishes `Loading(Scan)`, then appends each scanned device and
  republishes the whole list on every result. Registration touches no
  list: it publishes `Loading(Register(device))`, then one `Registered` or
  `Failure` state per result.
- **The scan path end to end** (`scan_pipeline.dfy`): the view-model
  republishes the full list, duplicates included, on every result, and the
  fragment re-appends every device each time. Because the upsert is
  idempotent, each section still ends with one row per endpoint id of its
  mode (OOBE and Normal only; other modes get no row). Within a section
  the rows stand in first-seen order, and each holds that section's latest
  report for its id. An id reported under both modes has a row in each
  section.
- **`ConnectionViewModel`** (`connection_view_model.dfy`): connect,
  register, subscribe, write and disconnect over one secure connection,
  with a message list tagged Read/Write.
- **`AccountSettingViewModel`** (`account_setting_view_model.dfy`): the
  token request is retried only when it fails without an exception. It is
  retried at most three times, waiting 200, 250 and 300 ms. The module also
  covers login, logout and deregistration.
- **`CoverageTestViewModel`** (`coverage_test_view_model.dfy`): start, stop
  and disconnect publish nothing while no connection is held (stop still
  cancels the timer). SDK test events map
  totally to UI states. The test duration is computed in 32-bit `Int`
  arithmetic, so it wraps.
- **`CoverageTestReportFragment`** (`coverage_test_report_fragment.dfy`):
  the link-type name table and the rendering of each state.
- **The SDK's types** (`sdk.dfy`) are abstract. A device is a record keyed
  by `endpointId` with a mode of OOBE, Normal or other. Every call returns
  `Success(value)` or `Failure(exception?)`.

Each view-model is a class. `uiState` is the value its state flow holds, and
the ghost field `emitted` records every value it has held, the initial one
first. Each `viewModelScope.launch` block is one method. That method takes
the SDK's outcomes as parameters: one result, or the sequence of results a
flow delivered. Where a block collects a flow, the method's loop is proved
against a trace function over those results (`ScanTrace`, `SubscribeTrace`,
`RegisterTrace`, `StartTrace`).

`ScanFragment.kt` was written against another version of the view-model than
`ScanViewModel.kt`:

- the fragment's register event carries a serial number, its `Registered`
  state carries a registration detail, and it calls `registerDevice` and
  `cancelRegisterDevice`;
- the view-model's register event carries a device, and its `Registered`
  state carries `wirelessDeviceId` and `sidewalkId`.

Each file is modelled as written. The fragment has its own state types, and
`ScanPipeline` joins the two only on the scan states, where they agree.

## Model

| member | source | states |
|---|---|---|
| `KeyedList.IndexOf` | sample/src/main/java/com/amazon/sidewalk/sample/adapter/DeviceAdapter.kt:78 | `indexOfFirst`: -1 iff no entry has the id; otherwise the entry there has the id and no earlier one does |
| `KeyedList.Upsert` | sample/src/main/java/com/amazon/sidewalk/sample/adapter/DeviceAdapter.kt:77-86 | the key order is unchanged when the key is present and gains the key at the end when absent; unique keys stay unique |
| `KeyedList.UpsertShape` | sample/src/main/java/com/amazon/sidewalk/sample/adapter/DeviceAdapter.kt:77-86 | an absent key is added at the end and the size grows by one; a present key is overwritten at its index and the size is unchanged; every other position keeps its value |
| `KeyedList.UpsertAll` | sample/src/main/java/com/amazon/sidewalk/sample/fragment/ScanFragment.kt:256-263 | a run of appends keeps keys unique and never shrinks the list nor grows it by more than the run's length |
| `KeyedList.Table` | sample/src/main/java/com/amazon/sidewalk/sample/adapter/DeviceAdapter.kt:77-86 | the content view of a list has exactly the list's keys |
| `KeyedList.TableIsLast` | sample/src/main/java/com/amazon/sidewalk/sample/adapter/DeviceAdapter.kt:83 | the content view maps a key to the last entry carrying it |
| `KeyedList.TableAt` | sample/src/main/java/com/amazon/sidewalk/sample/adapter/DeviceAdapter.kt:77-86 | in a list with unique keys each entry is what the content view holds for its key |
| `KeyedList.TableOverwrite` | sample/src/main/java/com/amazon/sidewalk/sample/adapter/DeviceAdapter.kt:82-84 | the in-place overwrite updates the content at exactly that key |
| `KeyedList.OverwriteSingle` | sample/src/main/java/com/amazon/sidewalk/sample/adapter/DeviceAdapter.kt:82-84 | appending a device to a one-entry list holding its endpoint id replaces that entry |
| `KeyedList.UpsertTable` | sample/src/main/java/com/amazon/sidewalk/sample/adapter/DeviceAdapter.kt:77-86 | one append sets the content at the device's key to the device and changes no other key |
| `KeyedList.UpsertAllTable` | sample/src/main/java/com/amazon/sidewalk/sample/fragment/ScanFragment.kt:256-263 | after a run of appends, the content is the old content overridden by the last device per key of the run |
| `KeyedList.UpsertAllCovers` | sample/src/main/java/com/amazon/sidewalk/sample/fragment/ScanFragment.kt:256-263 | after a run of appends every old key and every key of the run is present |
| `KeyedList.UpsertAllPresentKeys` | sample/src/main/java/com/amazon/sidewalk/sample/adapter/DeviceAdapter.kt:82-84 | appending devices whose keys are all present leaves the key order unchanged |
| `KeyedList.Extensionality` | sample/src/main/java/com/amazon/sidewalk/sample/adapter/DeviceAdapter.kt:77-86 | two lists with unique keys, the same key order and the same content are equal |
| `KeyedList.UpsertIdempotent` | sample/src/main/java/com/amazon/sidewalk/sample/adapter/DeviceAdapter.kt:77-86 | appending the same device twice in a row gives the same list as appending it once |
| `KeyedList.UpsertAllIdempotent` | sample/src/main/java/com/amazon/sidewalk/sample/fragment/ScanFragment.kt:256-263 | replaying a whole run of appends on a list with unique keys changes nothing |
| `KeyedList.UpsertAllConcat` | sample/src/main/java/com/amazon/sidewalk/sample/fragment/ScanFragment.kt:256-263 | a run of appends can be split at any point |
| `KeyedList.UpsertAllExtends` | sample/src/main/java/com/amazon/sidewalk/sample/fragment/ScanFragment.kt:256-263 | appending a run and then a longer run that extends it equals appending the longer run alone |
| `KeyedList.IndexOfAppend` | sample/src/main/java/com/amazon/sidewalk/sample/adapter/DeviceAdapter.kt:78-81 | adding at the end leaves the first index of existing keys unchanged and puts a new key at the old length |
| `KeyedList.UpsertAllKeys` | sample/src/main/java/com/amazon/sidewalk/sample/fragment/ScanFragment.kt:256-263 | after a run of appends a key is present iff it was present before or occurs in the run |
| `KeyedList.UniqueKeyCount` | sample/src/main/java/com/amazon/sidewalk/sample/adapter/DeviceAdapter.kt:75-86 | a list without repeated ids has exactly as many items as distinct ids |
| `KeyedList.FreshRunKeys` | sample/src/main/java/com/amazon/sidewalk/sample/adapter/DeviceAdapter.kt:77-91 | appending a run after `reset` holds each key of the run exactly once and no other key |
| `KeyedList.FreshRunTable` | sample/src/main/java/com/amazon/sidewalk/sample/adapter/DeviceAdapter.kt:77-91 | appending a run after `reset` has the run's own content, the last device per key |
| `KeyedList.FreshRunValues` | sample/src/main/java/com/amazon/sidewalk/sample/adapter/DeviceAdapter.kt:77-91 | each entry after such a run is the run's last device with that key |
| `KeyedList.FreshRunOrder` | sample/src/main/java/com/amazon/sidewalk/sample/adapter/DeviceAdapter.kt:77-91 | the entries after such a run stand in the order their keys first occurred in the run |
| `DeviceAdapters.MenuFor` | sample/src/main/java/com/amazon/sidewalk/sample/adapter/DeviceAdapter.kt:47-51 | Normal options iff mode Normal, OOBE options iff mode OOBE, no menu iff any other mode |
| `DeviceAdapters.DeviceAdapter.constructor` | sample/src/main/java/com/amazon/sidewalk/sample/adapter/DeviceAdapter.kt:35 | the list starts empty |
| `DeviceAdapters.DeviceAdapter.IndexOfFirst` | sample/src/main/java/com/amazon/sidewalk/sample/adapter/DeviceAdapter.kt:78 | the linear search returns the first index holding the id, -1 iff none does |
| `DeviceAdapters.DeviceAdapter.Append` | sample/src/main/java/com/amazon/sidewalk/sample/adapter/DeviceAdapter.kt:75-86 | the new list is the upsert of the old one; unique keys stay unique; the item count grows by one iff the id was not listed |
| `DeviceAdapters.DeviceAdapter.Reset` | sample/src/main/java/com/amazon/sidewalk/sample/adapter/DeviceAdapter.kt:88-91 | the list is empty, the item count is 0 and keys are trivially unique |
| `DeviceAdapters.DeviceAdapter.MenuOnClick` | sample/src/main/java/com/amazon/sidewalk/sample/adapter/DeviceAdapter.kt:44-51 | a click opens the menu for the clicked device's mode, none iff the mode is neither Normal nor OOBE |
| `ScanFragments.SessionRowCount` | sample/src/main/java/com/amazon/sidewalk/sample/fragment/ScanFragment.kt:119-124 | after a scan session the screen has one row per distinct endpoint id of each mode in the last list, plus the two header rows |
| `ScanFragments.OfMode` | sample/src/main/java/com/amazon/sidewalk/sample/fragment/ScanFragment.kt:256-263 | a device is selected iff it is in the list and has the mode |
| `ScanFragments.OfModeKeys` | sample/src/main/java/com/amazon/sidewalk/sample/fragment/ScanFragment.kt:256-263 | a key is selected iff some listed device of that mode has it |
| `ScanFragments.OfModePrefix` | sample/src/main/java/com/amazon/sidewalk/sample/fragment/ScanFragment.kt:256-263 | the selection from a longer scan list extends the selection from a prefix of it |
| `ScanFragments.ScannedRouting` | sample/src/main/java/com/amazon/sidewalk/sample/fragment/ScanFragment.kt:255-263 | a `Scanned` state puts a key in the unregistered section iff an OOBE device has it, in the registered section iff a Normal device has it, other modes in neither |
| `ScanFragments.GrowingDeliveries` | sample/src/main/java/com/amazon/sidewalk/sample/fragment/ScanFragment.kt:255-263 | delivering growing scan lists with no rescan leaves the sections as delivering only the last list would |
| `ScanFragments.ScanSession` | sample/src/main/java/com/amazon/sidewalk/sample/fragment/ScanFragment.kt:230-263 | `Loading(Scan)` followed by growing lists leaves each section with unique keys, exactly the keys of its mode in the last list |
| `ScanFragments.SessionRestarts` | sample/src/main/java/com/amazon/sidewalk/sample/fragment/ScanFragment.kt:232-235 | `Loading(Scan)` empties both sections whatever they held |
| `ScanFragments.LaunchLayout` | sample/src/test/java/com/amazon/sidewalk/sample/fragment/ScanFragmentTest.kt:123-138 | an OOBE device, then a Normal one, delivered as growing lists, give one device under each header and four rows |
| `ScanFragments.OneOfEach` | sample/src/main/java/com/amazon/sidewalk/sample/fragment/ScanFragment.kt:230-263 | for any OOBE and any Normal device, `Loading(Scan)` and the two growing lists leave each device alone in its section, whatever the sections held |
| `ScanFragments.ScanFragment.constructor` | sample/src/main/java/com/amazon/sidewalk/sample/fragment/ScanFragment.kt:100-108 | two distinct, empty adapters and no dialog |
| `ScanFragments.ScanFragment.OnStart` | sample/src/main/java/com/amazon/sidewalk/sample/fragment/ScanFragment.kt:145-148 | starting the fragment requests an unforced scan |
| `ScanFragments.ScanFragment.OnStop` | sample/src/main/java/com/amazon/sidewalk/sample/fragment/ScanFragment.kt:150-153 | stopping the fragment cancels the scan |
| `ScanFragments.ScanFragment.OnOptionsItemSelected` | sample/src/main/java/com/amazon/sidewalk/sample/fragment/ScanFragment.kt:165-171 | the item is handled iff it is refresh, and refresh requests a forced scan |
| `ScanFragments.ScanFragment.ActionPerformOnDevice` | sample/src/main/java/com/amazon/sidewalk/sample/fragment/ScanFragment.kt:206-225 | secure channel navigates with registered = (mode is Normal); register requests registration of the device's serial; coverage test navigates with the serial; other items do nothing |
| `ScanFragments.ScanFragment.HandleUiState` | sample/src/main/java/com/amazon/sidewalk/sample/fragment/ScanFragment.kt:227-296 | per state: the sections, status text, alerts, dialog and requests; `Registered` always ends with a forced rescan; a scan failure sets "Scanning Off" and a register failure leaves the status alone |
| `ScanFragments.ScanFragment.ShowDevices` | sample/src/main/java/com/amazon/sidewalk/sample/fragment/ScanFragment.kt:255-263 | appending each device to the section of its mode routes the whole list |
| `ScanViewModels.EventMessage` | sample/src/main/java/com/amazon/sidewalk/sample/viewmodel/ScanViewModel.kt:44-47 | the message is "Scan" iff the event is a scan, and "Register" iff it is a registration |
| `ScanViewModels.Successes` | sample/src/main/java/com/amazon/sidewalk/sample/viewmodel/ScanViewModel.kt:71-75 | a scan accumulates at most one device per result |
| `ScanViewModels.SuccessesMembers` | sample/src/main/java/com/amazon/sidewalk/sample/viewmodel/ScanViewModel.kt:71-75 | the accumulated list holds a device iff a result delivered it successfully |
| `ScanViewModels.ScanTrace` | sample/src/main/java/com/amazon/sidewalk/sample/viewmodel/ScanViewModel.kt:70-81 | one state per result, each `Scanned` or `Failure(Scan)` |
| `ScanViewModels.ScanTraceAt` | sample/src/main/java/com/amazon/sidewalk/sample/viewmodel/ScanViewModel.kt:72-79 | a success appends exactly its device at the end and publishes the whole list, without deduplication; a failure publishes `Failure(Scan, e)` and leaves the list |
| `ScanViewModels.SuccessesGrow` | sample/src/main/java/com/amazon/sidewalk/sample/viewmodel/ScanViewModel.kt:73-75 | an earlier published list is a prefix of every later one |
| `ScanViewModels.RegisterTrace` | sample/src/main/java/com/amazon/sidewalk/sample/viewmodel/ScanViewModel.kt:91-99 | each result publishes `Registered` with the result's ids or `Failure(Register(device), e)` |
| `ScanViewModels.ScanViewModel.constructor` | sample/src/main/java/com/amazon/sidewalk/sample/viewmodel/ScanViewModel.kt:51-57 | the state starts `Idle`, the list empty, no jobs |
| `ScanViewModels.ScanViewModel.Scan` | sample/src/main/java/com/amazon/sidewalk/sample/viewmodel/ScanViewModel.kt:59-83 | a forced scan cancels the old job and an unforced one does not; the list is emptied and `Loading(Scan)` published before any result; then the scan trace |
| `ScanViewModels.ScanViewModel.CollectScanResults` | sample/src/main/java/com/amazon/sidewalk/sample/viewmodel/ScanViewModel.kt:70-81 | from an emptied list, the flow's results leave the list holding every reported device in order and publish the scan trace |
| `ScanViewModels.ScanViewModel.CollectScan` | sample/src/main/java/com/amazon/sidewalk/sample/viewmodel/ScanViewModel.kt:71-79 | a success appends its device and publishes `Scanned` with the whole list; a failure publishes `Failure(Scan, e)` and leaves the list |
| `ScanViewModels.ScanViewModel.Register` | sample/src/main/java/com/amazon/sidewalk/sample/viewmodel/ScanViewModel.kt:85-103 | `Loading(Register(device))`, then the register trace; the scan list is untouched |
| `ScanViewModels.ScanViewModel.CancelScan` | sample/src/main/java/com/amazon/sidewalk/sample/viewmodel/ScanViewModel.kt:105-108 | the scan job, if any, is cancelled and the field left null |
| `ScanViewModels.ScanViewModel.CancelRegister` | sample/src/main/java/com/amazon/sidewalk/sample/viewmodel/ScanViewModel.kt:110-113 | the register job, if any, is cancelled and the field left null |
| `ScanPipeline.ToFragment` | sample/src/main/java/com/amazon/sidewalk/sample/viewmodel/ScanViewModel.kt:36-42 | a scan state reaches the fragment as the same scan state |
| `ScanPipeline.ScanTraceGrows` | sample/src/main/java/com/amazon/sidewalk/sample/viewmodel/ScanViewModel.kt:63-81 | what a scan publishes after `Loading(Scan)` is a run of growing lists with no rescan, the last being every reported device |
| `ScanPipeline.ScanRenders` | sample/src/main/java/com/amazon/sidewalk/sample/fragment/ScanFragment.kt:230-263 | the screen after a scan is the full list of reported devices routed into empty sections, whatever it showed before |
| `ScanPipeline.ScanRendersDeduplicated` | sample/src/main/java/com/amazon/sidewalk/sample/fragment/ScanFragment.kt:230-263 | after a scan each section holds, once each, exactly the ids of the reported devices of its mode |
| `ScanPipeline.ScanSectionContents` | sample/src/main/java/com/amazon/sidewalk/sample/fragment/ScanFragment.kt:255-263 | the sections list ids in first-reported order, each entry the last report for its id |
| `ScanPipeline.RepeatedReport` | sample/src/main/java/com/amazon/sidewalk/sample/viewmodel/ScanViewModel.kt:73-75 | a device reported twice shows once, with the later reading |
| `ScanPipeline.IdInBothSections` | sample/src/main/java/com/amazon/sidewalk/sample/fragment/ScanFragment.kt:255-263 | an id reported first as OOBE and then as Normal in one scan has a row in each section |
| `ScanPipeline.SameKeyTwice` | sample/src/main/java/com/amazon/sidewalk/sample/viewmodel/ScanViewModel.kt:73-75 | two OOBE reports with one endpoint id leave a single entry, the later report |
| `ConnectionViewModels.EventMessage` | sample/src/main/java/com/amazon/sidewalk/sample/viewmodel/ConnectionViewModel.kt:49-55 | "Connect " + endpoint id for Connect; "Register", "Write", "Subscribe", "Disconnect" exactly for the others |
| `ConnectionViewModels.TypeName` | sample/src/main/java/com/amazon/sidewalk/sample/viewmodel/ConnectionViewModel.kt:57-60 | "Read" iff Read, "Write" iff Write |
| `ConnectionViewModels.Received` | sample/src/main/java/com/amazon/sidewalk/sample/viewmodel/ConnectionViewModel.kt:157-161 | at most one entry per result |
| `ConnectionViewModels.ReceivedEntries` | sample/src/main/java/com/amazon/sidewalk/sample/viewmodel/ConnectionViewModel.kt:157-161 | every subscription entry is tagged Read, and a message is listed iff it was received |
| `ConnectionViewModels.SubscribeTrace` | sample/src/main/java/com/amazon/sidewalk/sample/viewmodel/ConnectionViewModel.kt:156-167 | one state per result |
| `ConnectionViewModels.SubscribeTraceAt` | sample/src/main/java/com/amazon/sidewalk/sample/viewmodel/ConnectionViewModel.kt:158-165 | a received message is appended tagged Read and the whole list published; a failure publishes `Failure(Subscribe, e)` and leaves the list |
| `ConnectionViewModels.RegisterOutcome` | sample/src/main/java/com/amazon/sidewalk/sample/viewmodel/ConnectionViewModel.kt:136-145 | success publishes `Registered` with the ids; failure is reported under `Subscribe`, never `Register` |
| `ConnectionViewModels.RegisterTrace` | sample/src/main/java/com/amazon/sidewalk/sample/viewmodel/ConnectionViewModel.kt:134-147 | one registration outcome per result, in order |
| `ConnectionViewModels.ConnectionViewModel.constructor` | sample/src/main/java/com/amazon/sidewalk/sample/viewmodel/ConnectionViewModel.kt:73-86 | the state starts `Idle` and a connect runs at once: `Loading(Connect(id))`, then its outcome |
| `ConnectionViewModels.ConnectionViewModel.EstablishSecureConnect` | sample/src/main/java/com/amazon/sidewalk/sample/viewmodel/ConnectionViewModel.kt:88-107 | `Loading(Connect(id))`, then `Connected` with the connection stored, or `Failure(Connect(id), e)` |
| `ConnectionViewModels.ConnectionViewModel.DisconnectSecureChannel` | sample/src/main/java/com/amazon/sidewalk/sample/viewmodel/ConnectionViewModel.kt:110-127 | `Loading(Disconnect)`; success empties the list and publishes `Disconnected`; failure keeps it and publishes `Failure(Disconnect, e)` |
| `ConnectionViewModels.ConnectionViewModel.Register` | sample/src/main/java/com/amazon/sidewalk/sample/viewmodel/ConnectionViewModel.kt:129-149 | `Loading(Register)`, then the register trace; the list is untouched |
| `ConnectionViewModels.ConnectionViewModel.Subscribe` | sample/src/main/java/com/amazon/sidewalk/sample/viewmodel/ConnectionViewModel.kt:151-169 | the list is emptied, then holds exactly the received messages; the subscribe trace is published with no `Loading` |
| `ConnectionViewModels.ConnectionViewModel.Write` | sample/src/main/java/com/amazon/sidewalk/sample/viewmodel/ConnectionViewModel.kt:171-187 | success appends exactly the message tagged Write and publishes the list; failure keeps the list and publishes `Failure(Write, e)` |
| `ConnectionViewModels.SubscribeThenWrite` | sample/src/main/java/com/amazon/sidewalk/sample/viewmodel/ConnectionViewModel.kt:151-187 | after a subscription and a write the list is the received messages, tagged Read, followed by the written one |
| `AccountSettingViewModels.EventMessage` | sample/src/main/java/com/amazon/sidewalk/sample/viewmodel/AccountSettingViewModel.kt:44-49 | each event's label, exactly |
| `AccountSettingViewModels.TokenState` | sample/src/main/java/com/amazon/sidewalk/sample/viewmodel/AccountSettingViewModel.kt:72-78 | `LwaToken(token)` iff success, otherwise `Failure(RequestLwaToken, e)` |
| `AccountSettingViewModels.TokenRequests` | sample/src/main/java/com/amazon/sidewalk/sample/viewmodel/AccountSettingViewModel.kt:63-81 | between 1 and retry + 1 requests, one wait per retry; more than one request iff the first failed without an exception and retries remained |
| `AccountSettingViewModels.LastRequest` | sample/src/main/java/com/amazon/sidewalk/sample/viewmodel/AccountSettingViewModel.kt:66-79 | the last request is not retryable, and the one published state is its outcome |
| `AccountSettingViewModels.RetriedRequests` | sample/src/main/java/com/amazon/sidewalk/sample/viewmodel/AccountSettingViewModel.kt:66-68 | every earlier request was retryable, and the i-th wait is `delayMillis + 50 * i` |
| `AccountSettingViewModels.NonNullNeverRetried` | sample/src/main/java/com/amazon/sidewalk/sample/viewmodel/AccountSettingViewModel.kt:66 | a failure with an exception ends the run after one request and is published |
| `AccountSettingViewModels.DefaultSchedule` | sample/src/main/java/com/amazon/sidewalk/sample/viewmodel/AccountSettingViewModel.kt:63-68 | with the defaults, at most 4 requests, with waits from 200, 250, 300 ms |
| `AccountSettingViewModels.AlwaysFailingWithoutException` | sample/src/main/java/com/amazon/sidewalk/sample/viewmodel/AccountSettingViewModel.kt:63-79 | if every request fails without an exception, exactly 4 requests, waits 200, 250, 300, and `Failure(RequestLwaToken, null)` |
| `AccountSettingViewModels.AccountSettingViewModel.constructor` | sample/src/main/java/com/amazon/sidewalk/sample/viewmodel/AccountSettingViewModel.kt:56-61 | the state starts `Idle`; a token run with the defaults publishes exactly its final state |
| `AccountSettingViewModels.AccountSettingViewModel.RequestLwaToken` | sample/src/main/java/com/amazon/sidewalk/sample/viewmodel/AccountSettingViewModel.kt:63-81 | retried requests publish nothing; the run publishes one state and makes the counted requests and waits |
| `AccountSettingViewModels.AccountSettingViewModel.Login` | sample/src/main/java/com/amazon/sidewalk/sample/viewmodel/AccountSettingViewModel.kt:83-94 | `LoggedIn` or `Failure(Login, e)`, with no `Loading` first |
| `AccountSettingViewModels.AccountSettingViewModel.Logout` | sample/src/main/java/com/amazon/sidewalk/sample/viewmodel/AccountSettingViewModel.kt:96-110 | `Loading(Logout)`, then `LoggedOut` or `Failure(Logout, e)` |
| `AccountSettingViewModels.AccountSettingViewModel.DeregisterDevice` | sample/src/main/java/com/amazon/sidewalk/sample/viewmodel/AccountSettingViewModel.kt:112-128 | `Loading(Deregister(smsn))`, then `Deregistered` with the same serial, or `Failure(Deregister(smsn), e)` |
| `Sdk.WrapInt32` | sample/src/main/java/com/amazon/sidewalk/sample/viewmodel/CoverageTestViewModel.kt:188 | Kotlin `Int` arithmetic: a 32-bit value congruent to the exact one modulo 2^32, and equal to it when it fits |
| `CoverageTestViewModels.DurationMillis` | sample/src/main/java/com/amazon/sidewalk/sample/viewmodel/CoverageTestViewModel.kt:188 | `testDuration * 1000` in 32-bit `Int`, exact when the product fits |
| `CoverageTestViewModels.DurationBoundary` | sample/src/main/java/com/amazon/sidewalk/sample/viewmodel/CoverageTestViewModel.kt:188 | durations up to 2147483 s are exact; 2147484 s wraps to -2147483296 ms |
| `CoverageTestViewModels.TimerLength` | sample/src/main/java/com/amazon/sidewalk/sample/viewmodel/CoverageTestViewModel.kt:146-148 | a started timer ticks every 1000 ms, its length fits in 32 bits, and it is the test length in milliseconds whenever that fits |
| `CoverageTestViewModels.EventState` | sample/src/main/java/com/amazon/sidewalk/sample/viewmodel/CoverageTestViewModel.kt:164-192 | each direction of the mapping: CollectingReport with `Loading(Report)`; Ping, Pong and MissingPong with `Idle`; a report with `ReportFetched(data)`; TestStart with `InProgress` |
| `CoverageTestViewModels.StartOutcome` | sample/src/main/java/com/amazon/sidewalk/sample/viewmodel/CoverageTestViewModel.kt:113-124 | the state is a failure iff the result is, and then it is reported under `Start` with the result's exception; the state is `InProgress` iff the result is a successful test start |
| `CoverageTestViewModels.StartTrace` | sample/src/main/java/com/amazon/sidewalk/sample/viewmodel/CoverageTestViewModel.kt:112-126 | one state per result |
| `CoverageTestViewModels.StartTraceAt` | sample/src/main/java/com/amazon/sidewalk/sample/viewmodel/CoverageTestViewModel.kt:112-126 | the i-th state published is the outcome of the i-th result |
| `CoverageTestViewModels.LastTestStartIsLast` | sample/src/main/java/com/amazon/sidewalk/sample/viewmodel/CoverageTestViewModel.kt:187-191 | a duration that is found comes from a successful TestStart result with no test start after it |
| `CoverageTestViewModels.NoTestStart` | sample/src/main/java/com/amazon/sidewalk/sample/viewmodel/CoverageTestViewModel.kt:187-191 | there is no last test start iff no result is a successful TestStart |
| `CoverageTestViewModels.SubscribeOutcome` | sample/src/main/java/com/amazon/sidewalk/sample/viewmodel/CoverageTestViewModel.kt:250-258 | `Idle` iff a message arrived, otherwise `Failure(Subscribe, e)` |
| `CoverageTestViewModels.SubscribeTrace` | sample/src/main/java/com/amazon/sidewalk/sample/viewmodel/CoverageTestViewModel.kt:249-260 | one subscribe outcome per result, in order |
| `CoverageTestViewModels.CoverageTestViewModel.constructor` | sample/src/main/java/com/amazon/sidewalk/sample/viewmodel/CoverageTestViewModel.kt:88-94 | `Idle`, no connection, no timer, total duration 0 |
| `CoverageTestViewModels.CoverageTestViewModel.CountDownTime` | sample/src/main/java/com/amazon/sidewalk/sample/viewmodel/CoverageTestViewModel.kt:146-162 | the timer is replaced by a started one of the wrapped length |
| `CoverageTestViewModels.CoverageTestViewModel.HandleCoverageTestEvent` | sample/src/main/java/com/amazon/sidewalk/sample/viewmodel/CoverageTestViewModel.kt:164-192 | returns the mapped state; TestStart sets the total duration and a timer of the same length, so the timer always runs as long as the recorded total; other events change neither |
| `CoverageTestViewModels.CoverageTestViewModel.StartCoverageTest` | sample/src/main/java/com/amazon/sidewalk/sample/viewmodel/CoverageTestViewModel.kt:96-129 | no connection: nothing; otherwise `Loading(Start)`, then the start trace, with the duration and timer set by the last TestStart |
| `CoverageTestViewModels.CoverageTestViewModel.CollectStartResults` | sample/src/main/java/com/amazon/sidewalk/sample/viewmodel/CoverageTestViewModel.kt:112-126 | publishes the start trace; the duration and timer follow the last TestStart, and stay unchanged when there is none |
| `CoverageTestViewModels.CoverageTestViewModel.CollectStart` | sample/src/main/java/com/amazon/sidewalk/sample/viewmodel/CoverageTestViewModel.kt:113-124 | one result publishes its outcome, and only a TestStart sets the duration and the timer |
| `CoverageTestViewModels.CoverageTestViewModel.StopCoverageTest` | sample/src/main/java/com/amazon/sidewalk/sample/viewmodel/CoverageTestViewModel.kt:131-144 | the timer is cancelled; with a connection, `Loading(Stop)` then `TestCompleted` whatever the stop call returns |
| `CoverageTestViewModels.CoverageTestViewModel.OnTick` | sample/src/main/java/com/amazon/sidewalk/sample/viewmodel/CoverageTestViewModel.kt:149-153 | a tick publishes the time left and the total duration |
| `CoverageTestViewModels.CoverageTestViewModel.OnFinish` | sample/src/main/java/com/amazon/sidewalk/sample/viewmodel/CoverageTestViewModel.kt:155-159 | the timer's end publishes `TestCompleted` |
| `CoverageTestViewModels.CoverageTestViewModel.EstablishSecureConnect` | sample/src/main/java/com/amazon/sidewalk/sample/viewmodel/CoverageTestViewModel.kt:194-218 | `Loading(Connect)`; success stores the connection, launches a subscription and publishes `Connected`; failure publishes `Failure(Connect, e)` |
| `CoverageTestViewModels.CoverageTestViewModel.DisconnectSecureConnection` | sample/src/main/java/com/amazon/sidewalk/sample/viewmodel/CoverageTestViewModel.kt:220-244 | no connection: nothing; otherwise `Loading(Disconnect)`, then `Disconnected(Stop)` or `Failure(Disconnect, e)`; the connection is kept |
| `CoverageTestViewModels.CoverageTestViewModel.Subscribe` | sample/src/main/java/com/amazon/sidewalk/sample/viewmodel/CoverageTestViewModel.kt:246-263 | no connection: nothing; otherwise the subscribe trace |
| `CoverageTestViewModels.CoverageTestViewModel.OnCleared` | sample/src/main/java/com/amazon/sidewalk/sample/viewmodel/CoverageTestViewModel.kt:265-268 | the connection is dropped |
| `CoverageTestViewModels.ClearedIsInert` | sample/src/main/java/com/amazon/sidewalk/sample/viewmodel/CoverageTestViewModel.kt:265-268 | after clearing, start, stop and disconnect publish nothing and leave the duration; stop still cancels the timer |
| `CoverageTestReportFragments.LinkTypeName` | sample/src/main/java/com/amazon/sidewalk/sample/fragment/CoverageTestReportFragment.kt:104-112 | 0 LoRA, 1 FSK, 2 BLE and 14 AUTO_SUB_GHZ, each iff; every other code AUTO_ALL_PHY |
| `CoverageTestReportFragments.LinkTypeNames` | sample/src/main/java/com/amazon/sidewalk/sample/fragment/CoverageTestReportFragment.kt:104-112 | the table is total over all integers and yields one of five names |
| `CoverageTestReportFragments.Dismissed` | sample/src/main/java/com/amazon/sidewalk/sample/fragment/CoverageTestReportFragment.kt:76 | dismissing keeps the dialog reference and takes it off screen |
| `CoverageTestReportFragments.CoverageTestReportFragment.constructor` | sample/src/main/java/com/amazon/sidewalk/sample/fragment/CoverageTestReportFragment.kt:46-47 | no dialog, no report, no error shown |
| `CoverageTestReportFragments.CoverageTestReportFragment.HandleUiState` | sample/src/main/java/com/amazon/sidewalk/sample/fragment/CoverageTestReportFragment.kt:65-101 | `Loading` shows a new dialog, leaving a shown one behind; a failure other than Subscribe shows an error dialog; `Disconnected` navigates to the dashboard; a fetched report is shown as its packet total, pong total and link-type name; other states only dismiss |
| `CoverageTestReportFragments.ReportSession` | sample/src/main/java/com/amazon/sidewalk/sample/fragment/CoverageTestReportFragment.kt:65-93 | collecting, report, disconnect: the report shown, no error, no dialog on screen, one navigation |

## Left out

- The Sidewalk SDK itself is a closed library. Scanning, secure connect, register, write, subscribe, the coverage test, login, logout, deregistration and the token request are foreign calls. Their outcomes are method parameters, and a flow's delivered results are a sequence.
- Coroutines are not modelled. Each `viewModelScope.launch` block runs as one atomic method, and concurrent launches never interleave. `Job.cancel` is recorded in the `cancelled` list; the results a cancelled flow would not deliver are simply not passed.
- `delay` only appears as the number of milliseconds recorded in `waits`. The call `accountSettingRepository.clear()` in `onCleared` goes to a repository outside this model.
- A published `Scanned`, `Read` or `Written` state holds a reference to the live mutable list, so a later append also shows through an earlier state. The model publishes snapshots.
- `ScanPipeline` assumes the fragment's collector sees every published state. A state flow may conflate states.
- The Android `CountDownTimer` only appears as `OnTick` and `OnFinish`, which the platform calls. A timer replaced by a newer test start keeps running on the platform; the model keeps only the current one.
- `ConnectionViewModels.ConnectionViewModel.DisconnectSecureChannel` requires a connection, and so do `Register`, `Subscribe` and `Write`. `sidewalkConnection` is `lateinit`, and using it before a successful connect throws inside the coroutine; that exception is not modelled.
- The endpoint id comes from the saved-state handle (`savedStateHandle.get(...)!!`); here it is a constructor parameter.
- UI rendering and platform wiring are left out:
  - permissions and the Bluetooth prompt;
  - the text of device rows (`onBindViewHolder`) and adapter `notify*` calls;
  - section headers (`SectionAdapter`);
  - the cancel button of the register dialog;
  - `onDestroy`'s dismiss;
  - the error dialog's OK button and back-press navigation;
  - string resources beyond the texts the code spells out.
- `ScanFragment` calls `registerDevice` and `cancelRegisterDevice` and reads `RegistrationDetail`, none of which the modelled `ScanViewModel` has. Only the `registerDevice` call is recorded as a request (its cancel button, which calls `cancelRegisterDevice`, is left out), and the fragment's states are its own types.
- `CoverageTestViewModels.CoverageTestViewModel.HandleCoverageTestEvent` does not model the `Log.i` calls of the ping, pong and missed-pong branches.
- `CoverageTestReportFragments.CoverageTestReportFragment.HandleUiState` models the progress dialog as a shown/dismissed flag, without its message.
- `DeviceAdapters.DeviceAdapter.MenuOnClick` requires a position inside the list. The view can report `NO_POSITION` (-1) for a row whose update is still pending; indexing `dataSet` with it throws, and that crash is not modelled.
- `emitted` records every `update` of a UI-state flow, including one that sets the value it already holds (`Idle`, `Connected`, `TestCompleted`, `LoggedIn`, `LoggedOut`). A `StateFlow` does not emit an equal value again, so two successive equal entries in `emitted` are one emission on the platform.
- The title of the register dialogs is the app's `register` string resource, whose text is not part of this model; `RegisterTitle` is a constant with no value.
