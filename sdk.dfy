/**
 * Abstract view of the types the closed Sidewalk mobile SDK hands to the
 * sample app. Only what the app's own code inspects is kept: a device's
 * endpoint id (the key the adapters use), its beacon mode, and the outcome
 * shape `Success(value) | Failure(exception?)` of every SDK call.
 */
module Sdk {

  datatype Option<+T> = None | Some(value: T)

  /** A thrown exception; only its (nullable) message is ever read by the app. */
  datatype Exception = Exception(message: Option<string>)

  /** `SidewalkResult<T>`: either a value or a failure with a nullable exception. */
  datatype SdkResult<+T> = Success(value: T) | Failure(exception: Option<Exception>)

  /** `BeaconInfo.DeviceMode`: the app only tells OOBE and Normal apart from the rest. */
  datatype DeviceMode = Oobe | Normal | OtherMode

  /** `SidewalkDevice`, reduced to the fields the app reads. */
  datatype Device = Device(
    endpointId: string,
    name: string,
    rssi: int,
    mode: DeviceMode,
    truncatedSmsn: string)

  /** `RegisterResult.Success` payload. */
  datatype Registration = Registration(wirelessDeviceId: string, sidewalkId: string)

  /** `SidewalkConnection`: an opaque handle, told apart by an id. */
  datatype Connection = Connection(id: nat)

  /** `SidewalkMessage`: an opaque payload. */
  datatype Message = Message(payload: seq<bv8>)

  /** `SidewalkCoverageTestReport`, reduced to the fields the report screen shows. */
  datatype CoverageReport = CoverageReport(totalPkts: int, totalPongs: int, linkType: int)

  /** `SidewalkCoverageTestEvent`: the events a running coverage test streams. */
  datatype CoverageEvent =
    | CollectingReport
    | PingEvent(eventTimeMs: int)
    | PongEvent(eventTimeMs: int)
    | MissingPongEvent(eventTimeMs: int)
    | TestReportEvent(data: CoverageReport)
    | TestStart(testDuration: int)

  /** The two's-complement range of a Kotlin `Int`. */
  predicate IsInt32(x: int) {
    -0x8000_0000 <= x < 0x8000_0000
  }

  /**
   * Kotlin `Int` arithmetic: the mathematical result reduced into the
   * 32-bit two's-complement range (wrap-around, no exception).
   */
  function WrapInt32(x: int): (r: int)
    ensures IsInt32(r)
    ensures (r - x) % 0x1_0000_0000 == 0
    ensures IsInt32(x) ==> r == x
  {
    var m := x % 0x1_0000_0000;
    if m < 0x8000_0000 then m else m - 0x1_0000_0000
  }
}
