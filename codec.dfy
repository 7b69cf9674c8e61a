/**
 * The pure payload codec of the BLE control session: the 8-byte command
 * written to the control characteristic, the decoding of status
 * notifications by length, the lowercase hex form of a byte string, and
 * the throttle/steering labels.
 */
module Codec {

  /** One octet of a characteristic value (Python `bytes` elements). */
  type Byte = b: int | 0 <= b < 256

  /** Number of bytes in a command payload. */
  const ControlPayloadLength := 8

  /** `int(flag)` of a Python bool. */
  function Bit(flag: bool): Byte { if flag then 1 else 0 }

  /**
   * `build_control_payload`: `[mode & 0xFF, fwd, rev, left, right, lights,
   * turbo, donut]`. Python's `& 0xFF` on an unbounded int keeps the low 8 bits
   * of the two's complement form, which is the Euclidean `% 256`.
   */
  function BuildControlPayload(mode: int, throttle: int, steering: int,
                               lights: bool, turbo: bool, donut: bool): (r: seq<Byte>)
    ensures |r| == ControlPayloadLength
    ensures (r[0] - mode) % 256 == 0
    ensures 0 <= mode < 256 ==> r[0] == mode
    ensures forall i :: 1 <= i < |r| ==> r[i] == 0 || r[i] == 1
    ensures r[1] == 1 <==> throttle > 0
    ensures r[2] == 1 <==> throttle < 0
    ensures r[3] == 1 <==> steering < 0
    ensures r[4] == 1 <==> steering > 0
    ensures r[5] == 1 <==> lights
    ensures r[6] == 1 <==> turbo
    ensures r[7] == 1 <==> donut
    ensures !(r[1] == 1 && r[2] == 1) && !(r[3] == 1 && r[4] == 1)
  {
    [mode % 256, Bit(throttle > 0), Bit(throttle < 0), Bit(steering < 0),
     Bit(steering > 0), Bit(lights), Bit(turbo), Bit(donut)]
  }

  /** The sign of a throttle or steering value, the only part the payload keeps. */
  function Sign(x: int): int { if x > 0 then 1 else if x < 0 then -1 else 0 }

  /**
   * Two control states give byte-identical payloads exactly when they agree on
   * the mode modulo 256, on the signs of throttle and steering and on the
   * three toggles.
   */
  lemma PayloadIdentifiesControls(m1: int, t1: int, s1: int, l1: bool, u1: bool, d1: bool,
                                  m2: int, t2: int, s2: int, l2: bool, u2: bool, d2: bool)
    ensures BuildControlPayload(m1, t1, s1, l1, u1, d1) == BuildControlPayload(m2, t2, s2, l2, u2, d2)
        <==> (m1 % 256 == m2 % 256 && Sign(t1) == Sign(t2) && Sign(s1) == Sign(s2)
              && l1 == l2 && u1 == u2 && d1 == d2)
  {
  }

  // ---------------------------------------------------------------------------
  // Lowercase hex, as Python's `bytes.hex()`

  /** The lowercase hex digit of a nibble. */
  function HexDigit(n: int): (c: char)
    requires 0 <= n < 16
    ensures '0' <= c <= '9' || 'a' <= c <= 'f'
  {
    if n < 10 then ('0' as int + n) as char else ('a' as int + n - 10) as char
  }

  /** Two lowercase hex digits per byte, high nibble first. */
  function Hex(data: seq<Byte>): (r: string)
    ensures |r| == 2 * |data|
    ensures forall i :: 0 <= i < |r| ==> '0' <= r[i] <= '9' || 'a' <= r[i] <= 'f'
  {
    if data == [] then "" else [HexDigit(data[0] / 16), HexDigit(data[0] % 16)] + Hex(data[1..])
  }

  /** The value of a lowercase hex digit. */
  function DigitValue(c: char): int {
    if '0' <= c <= '9' then c as int - '0' as int else c as int - 'a' as int + 10
  }

  /** Reads back a string of hex digit pairs; the inverse of `Hex`. */
  function Unhex(s: string): seq<int>
    requires |s| % 2 == 0
  {
    if |s| == 0 then [] else [16 * DigitValue(s[0]) + DigitValue(s[1])] + Unhex(s[2..])
  }

  lemma {:induction false} UnhexHex(data: seq<Byte>)
    ensures Unhex(Hex(data)) == data
  {
    if data != [] {
      var h := Hex(data);
      assert h[2..] == Hex(data[1..]);
      UnhexHex(data[1..]);
      assert DigitValue(h[0]) == data[0] / 16;
      assert DigitValue(h[1]) == data[0] % 16;
      assert [data[0]] + data[1..] == data;
    }
  }

  /** `bytes.hex()` is injective: equal hex strings come from equal bytes. */
  lemma HexInjective(a: seq<Byte>, b: seq<Byte>)
    ensures Hex(a) == Hex(b) <==> a == b
  {
    UnhexHex(a);
    UnhexHex(b);
  }

  // ---------------------------------------------------------------------------
  // Status notifications

  /**
   * The record `decode_status_payload` builds. The source returns a dict whose
   * keys depend on the length; every variant carries `length`.
   */
  datatype Telemetry =
    | BatteryLevel(length: nat, batteryPct: Byte)
    | ControlEcho(length: nat, mode: Byte, forward: Byte, reverse: Byte, left: Byte,
                  right: Byte, lights: Byte, turbo: Byte, donut: Byte)
    | RawStatus(length: nat, raw: string)

  /** The eight fields of a `ControlEcho`, in payload order. */
  function EchoFields(t: Telemetry): seq<Byte>
    requires t.ControlEcho?
  {
    [t.mode, t.forward, t.reverse, t.left, t.right, t.lights, t.turbo, t.donut]
  }

  /** `decode_status_payload`: classify by length; unknown lengths become hex. */
  function DecodeStatusPayload(data: seq<Byte>): (r: Telemetry)
    ensures r.length == |data|
    ensures r.BatteryLevel? <==> |data| == 1
    ensures r.ControlEcho? <==> |data| == 8
    ensures r.BatteryLevel? ==> r.batteryPct == data[0]
    ensures r.ControlEcho? ==> EchoFields(r) == data
    ensures r.RawStatus? ==> r.raw == Hex(data) && |r.raw| == 2 * |data|
  {
    if |data| == 1 then BatteryLevel(1, data[0])
    else if |data| == 8 then
      ControlEcho(8, data[0], data[1], data[2], data[3], data[4], data[5], data[6], data[7])
    else RawStatus(|data|, Hex(data))
  }

  /** Decoding loses nothing: different notifications decode differently. */
  lemma DecodeInjective(a: seq<Byte>, b: seq<Byte>)
    ensures DecodeStatusPayload(a) == DecodeStatusPayload(b) <==> a == b
  {
    var da, db := DecodeStatusPayload(a), DecodeStatusPayload(b);
    if da == db {
      if da.BatteryLevel? {
        assert a == [a[0]] && b == [b[0]];
      } else if da.RawStatus? {
        HexInjective(a, b);
      }
    }
  }

  /**
   * Decoding a command payload (the car echoes the 8-byte layout) recovers the
   * mode byte and the direction and toggle flags it was built from.
   */
  lemma DecodeBuiltPayload(mode: int, throttle: int, steering: int,
                           lights: bool, turbo: bool, donut: bool)
    ensures var t := DecodeStatusPayload(BuildControlPayload(mode, throttle, steering, lights, turbo, donut));
      && t.ControlEcho? && t.length == 8
      && t.mode == mode % 256
      && t.forward == Bit(throttle > 0) && t.reverse == Bit(throttle < 0)
      && t.left == Bit(steering < 0) && t.right == Bit(steering > 0)
      && t.lights == Bit(lights) && t.turbo == Bit(turbo) && t.donut == Bit(donut)
  {
  }

  // ---------------------------------------------------------------------------
  // Labels

  /** `throttle_label`. */
  function ThrottleLabel(value: int): (r: string)
    ensures r == "Forward" <==> value > 0
    ensures r == "Reverse" <==> value < 0
    ensures r == "Stopped" <==> value == 0
  {
    if value > 0 then "Forward" else if value < 0 then "Reverse" else "Stopped"
  }

  /** `steering_label`. */
  function SteeringLabel(value: int): (r: string)
    ensures r == "Left" <==> value < 0
    ensures r == "Right" <==> value > 0
    ensures r == "Straight" <==> value == 0
  {
    if value < 0 then "Left" else if value > 0 then "Right" else "Straight"
  }
}
