/**
 * `ControlState`: the mutable record shared by the BLE controller and the
 * input handlers (desired vehicle state plus the last observed telemetry).
 */
module ControlStateModel {
  import opened Wrappers
  import opened Codec

  class ControlState {
    var mode: int
    var throttle: int
    var steering: int
    var lights: bool
    var turbo: bool
    var donut: bool
    var batteryPct: Option<int>
    var lastPayload: seq<Byte>
    /** `last_status`; `None` stands for the initial empty dict. */
    var lastStatus: Option<Telemetry>
    var lastStatusHex: string
    var message: string

    /** The dataclass defaults. */
    constructor ()
      ensures mode == 1 && throttle == 0 && steering == 0
      ensures !lights && !turbo && !donut
      ensures batteryPct == None && lastPayload == []
      ensures lastStatus == None && lastStatusHex == "" && message == ""
    {
      mode, throttle, steering := 1, 0, 0;
      lights, turbo, donut := false, false, false;
      batteryPct, lastPayload := None, [];
      lastStatus, lastStatusHex, message := None, "", "";
    }

    /** The command payload this state encodes to. */
    function Payload(): (r: seq<Byte>)
      reads this
      ensures |r| == ControlPayloadLength
    {
      BuildControlPayload(mode, throttle, steering, lights, turbo, donut)
    }
  }
}
