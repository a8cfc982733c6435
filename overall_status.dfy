/**
 * The overall-status characteristic (src/model/overall_status.py): four
 * bytes, a status code followed by the states of the fuel gauge, IMU1 and
 * IMU2. Unknown state values are kept as they are, not rejected.
 */
module OverallStatusModel {
  import opened Wrappers
  import opened ByteCodec

  const PayloadLength: nat := 4

  // Status codes
  const NoError: int := 0
  const GeneralError: int := 1

  // Sensor states
  const NotDetect: int := 0
  const Failed: int := 1
  const Idle: int := 2
  const Running: int := 3

  /** `OverallStatus`: the three sensor states and the raw payload. */
  datatype OverallStatus = OverallStatus(fuelgause: int, imu1: int, imu2: int, rawData: Option<seq<byte>>)

  /** `OverallStatus()` with every keyword argument left at its default. */
  function Default(): (s: OverallStatus)
    ensures s.fuelgause == NotDetect && s.imu1 == NotDetect && s.imu2 == NotDetect
    ensures s.rawData == None
  {
    OverallStatus(NotDetect, NotDetect, NotDetect, None)
  }

  /**
   * `OverallStatus.from_bytes`: `None` unless exactly 4 bytes; byte 0 (the
   * status code) is dropped and bytes 1..3 become the three states, in range
   * or not.
   */
  function FromBytes(data: seq<byte>): (r: Option<OverallStatus>)
    ensures r.Some? <==> |data| == PayloadLength
    ensures r.Some? ==> r.value.fuelgause == data[1] && r.value.imu1 == data[2] && r.value.imu2 == data[3]
    ensures r.Some? ==> r.value.rawData == Some(data)
  {
    if |data| != PayloadLength then None
    else Some(OverallStatus(data[1], data[2], data[3], Some(data)))
  }

  /** The payload a status record came from, status code `code` in front: the inverse of `FromBytes`. */
  function Encode(code: byte, s: OverallStatus): (data: seq<byte>)
    requires 0 <= s.fuelgause < 256 && 0 <= s.imu1 < 256 && 0 <= s.imu2 < 256
    ensures |data| == PayloadLength && data[0] == code
  {
    [code, s.fuelgause, s.imu1, s.imu2]
  }

  /** Whatever the status code, decoding what `Encode` produced gives the three states back. */
  lemma EncodeDecode(code: byte, s: OverallStatus)
    requires 0 <= s.fuelgause < 256 && 0 <= s.imu1 < 256 && 0 <= s.imu2 < 256
    ensures FromBytes(Encode(code, s)) == Some(s.(rawData := Some(Encode(code, s))))
  {
  }

  /** The status code does not matter: two payloads decode to the same states iff bytes 1..3 agree. */
  lemma StatusCodeIgnored(a: seq<byte>, b: seq<byte>)
    requires |a| == PayloadLength && |b| == PayloadLength
    ensures FromBytes(a).Some? && FromBytes(b).Some?
    ensures FromBytes(a).value.(rawData := None) == FromBytes(b).value.(rawData := None) <==> a[1..] == b[1..]
  {
    if a[1..] != b[1..] {
      var k :| 0 <= k < 3 && a[1..][k] != b[1..][k];
      assert a[k + 1] != b[k + 1];
    }
  }

  /** The debug-text label of a state; `status_texts.get(v, 'Unknown')`. */
  function StateLabel(v: int): (name: string)
    ensures name == "Unknown" <==> !(NotDetect <= v <= Running)
  {
    if v == NotDetect then "Not Detect"
    else if v == Failed then "Failed"
    else if v == Idle then "Idle"
    else if v == Running then "Running"
    else "Unknown"
  }

  /** Distinct known states get distinct labels, so the label identifies the state. */
  lemma StateLabelInjective(v: int, w: int)
    requires NotDetect <= v <= Running && NotDetect <= w <= Running
    requires StateLabel(v) == StateLabel(w)
    ensures v == w
  {
  }

  /** `OverallStatus.get_debug_text`: three labelled state lines, then the raw hex. */
  function DebugText(s: OverallStatus): (text: string)
    ensures var prefix := "Fuelgause: " + StateLabel(s.fuelgause) + "\n";
            |prefix| <= |text| && text[..|prefix|] == prefix
    ensures |RawHex(s.rawData)| <= |text| && text[|text| - |RawHex(s.rawData)|..] == RawHex(s.rawData)
  {
    "Fuelgause: " + StateLabel(s.fuelgause) + "\n"
    + "IMU1: " + StateLabel(s.imu1) + "\n"
    + "IMU2: " + StateLabel(s.imu2) + "\n"
    + "Raw data: " + RawHex(s.rawData)
  }
}
