/**
 * The older ESP32 service (src/utils/esp32_ble.py): its own timestamp and
 * IMU decoders, the text it renders IMU readings as, and the read, write and
 * notification calls it layers over a generic BLE wrapper. That wrapper
 * (src/utils/ble_service.py) only guards every call on the presence of a
 * connected client; here that guard is the `connected` parameter and each
 * transport reply is a parameter (`None` standing for a raised exception).
 */
module LegacyEsp32 {
  import opened Wrappers
  import opened ByteCodec
  import ImuModel
  import TimestampModel

  /** The `{'accel': {...}, 'gyro': {...}, 'mag': {...}}` dictionary. */
  datatype ImuDict = ImuDict(accel: ImuModel.Axes, gyro: ImuModel.Axes, mag: ImuModel.Axes)

  /** `_process_timestamp`: `struct.unpack('<Q')` of exactly 8 bytes, else `None`. */
  function ProcessTimestamp(value: seq<byte>): (r: Option<nat>)
    ensures r.Some? <==> |value| == 8
    ensures r.Some? ==> r.value < Pow256(8) && LeBytes(r.value, 8) == value
  {
    if |value| != 8 then None
    else
      LeBytesOfLeUnsigned(value);
      Some(LeUnsigned(value))
  }

  /** `_process_imu_data`: nine `<h` words grouped by sensor, plus the spaced hex of the input. */
  function ProcessImuData(value: seq<byte>): (r: Option<(ImuDict, string)>)
    ensures r.Some? <==> |value| == 18
    ensures r.Some? ==> r.value.1 == HexJoin(value)
  {
    if |value| != 18 then None
    else
      var vs := Int16s(value);
      Some((ImuDict(ImuModel.Axes(vs[0], vs[1], vs[2]), ImuModel.Axes(vs[3], vs[4], vs[5]),
                    ImuModel.Axes(vs[6], vs[7], vs[8])), HexJoin(value)))
  }

  /**
   * The two decoders of the repository agree: the older one accepts exactly
   * the payloads `IMUData.from_bytes` accepts, reads the same nine values and
   * renders the same hex string as `IMUData.to_hex_string`; likewise for the
   * timestamp.
   */
  lemma AgreesWithModels(value: seq<byte>)
    ensures ProcessImuData(value).Some? <==> ImuModel.FromBytes(value).Some?
    ensures ProcessImuData(value).Some? ==>
      var d := ImuModel.FromBytes(value).value;
      ProcessImuData(value).value == (ImuDict(d.accel, d.gyro, d.mag), RawHex(d.rawData))
    ensures ProcessTimestamp(value).Some? <==> TimestampModel.FromBytes(value).Some?
    ensures ProcessTimestamp(value).Some? ==>
      ProcessTimestamp(value).value == TimestampModel.FromBytes(value).value.unixTimestamp
  {
    if |value| == 8 {
      var a := ProcessTimestamp(value).value;
      var b := TimestampModel.FromBytes(value).value.unixTimestamp;
      LeUnsignedOfLeBytes(a, 8);
      LeUnsignedOfLeBytes(b, 8);
    }
  }

  /** `_format_imu_data`: accelerometer, gyroscope, then magnetometer, each as X, Y, Z. */
  function FormatImuData(d: ImuDict): (text: string)
    ensures var head := "Accelerometer (mg):\n  X: " + Decimal(d.accel.x) + "\n";
            |head| <= |text| && text[..|head|] == head
    ensures var tail := "\n  Z: " + Decimal(d.mag.z);
            |tail| <= |text| && text[|text| - |tail|..] == tail
  {
    var head := "Accelerometer (mg):\n  X: " + Decimal(d.accel.x) + "\n";
    var middle := "  Y: " + Decimal(d.accel.y) + "\n  Z: " + Decimal(d.accel.z)
      + "\nGyroscope (0.01 rad/s):\n  X: " + Decimal(d.gyro.x) + "\n  Y: " + Decimal(d.gyro.y)
      + "\n  Z: " + Decimal(d.gyro.z)
      + "\nMagnetometer (uT):\n  X: " + Decimal(d.mag.x) + "\n  Y: " + Decimal(d.mag.y);
    var tail := "\n  Z: " + Decimal(d.mag.z);
    Concat3(head, middle, tail);
    head + middle + tail
  }

  /** The outer parts of a three-part concatenation are its prefix and suffix. */
  lemma Concat3(a: string, b: string, c: string)
    ensures (a + b + c)[..|a|] == a
    ensures (a + b + c)[|a + b + c| - |c|..] == c
  {
  }

  /**
   * `write_timestamp`: the 8-byte `<Q` packing of the value, or `None` when
   * `struct.pack` would raise because the value is outside 0..2^64-1.
   */
  function TimestampPayload(timestamp: int): (r: Option<seq<byte>>)
    ensures r.Some? <==> 0 <= timestamp < Pow256(8)
    ensures r.Some? ==> |r.value| == 8 && ProcessTimestamp(r.value) == Some(timestamp)
  {
    if 0 <= timestamp < Pow256(8) then
      LeUnsignedOfLeBytes(timestamp, 8);
      Some(LeBytes(timestamp, 8))
    else None
  }

  /** What one `write_timestamp` call did: its result and the bytes sent, if any. */
  datatype WriteOutcome = WriteOutcome(result: bool, sent: Option<seq<byte>>)

  /**
   * `write_timestamp` over a client that is `connected` or not, whose write
   * succeeds iff `writeOk`: nothing is sent for an unpackable value or without
   * a connected client.
   */
  function WriteTimestamp(connected: bool, timestamp: int, writeOk: bool): (w: WriteOutcome)
    ensures w.sent.Some? <==> connected && 0 <= timestamp < Pow256(8)
    ensures w.sent.Some? ==> ProcessTimestamp(w.sent.value) == Some(timestamp)
    ensures w.result <==> w.sent.Some? && writeOk
  {
    match TimestampPayload(timestamp)
    case None => WriteOutcome(false, None)
    case Some(bytes) => if connected then WriteOutcome(writeOk, Some(bytes)) else WriteOutcome(false, None)
  }

  /** `read_timestamp`: `None` without a connected client, a failed read or a payload that is not 8 bytes. */
  function ReadTimestamp(connected: bool, reply: Option<seq<byte>>): (r: Option<nat>)
    ensures r.Some? <==> connected && reply.Some? && |reply.value| == 8
    ensures r.Some? ==> r.value < Pow256(8) && LeBytes(r.value, 8) == reply.value
  {
    if !connected || reply.None? then None else ProcessTimestamp(reply.value)
  }

  /**
   * `read_imu1` / `read_imu2`: the formatted text and hex of a decodable
   * reply, `None` whenever the guarded read or the decoding gives `None`.
   */
  function ReadImu(connected: bool, reply: Option<seq<byte>>): (r: Option<(string, string)>)
    ensures r.Some? <==> connected && reply.Some? && |reply.value| == 18
    ensures r.Some? ==> r.value.1 == HexJoin(reply.value)
  {
    if !connected || reply.None? then None
    else match ProcessImuData(reply.value)
      case None => None
      case Some((d, hex)) => Some((FormatImuData(d), hex))
  }

  /**
   * The notification handler `start_imu1_notify` / `start_imu2_notify`
   * install: the argument passed to the callback, or `None` when a malformed
   * payload is dropped without calling it.
   */
  function NotifyImu(data: seq<byte>): (call: Option<(string, string)>)
    ensures call.Some? <==> |data| == 18
    ensures call == ReadImu(true, Some(data))
  {
    match ProcessImuData(data)
    case None => None
    case Some((d, hex)) => Some((FormatImuData(d), hex))
  }

  /** The two IMU characteristics of the older service (lines 11-12 of its constructor). */
  datatype Imu = Imu1 | Imu2

  function ImuUuid(imu: Imu): string
  {
    match imu
    case Imu1 => "55A58E5B-9F51-47DC-B6C7-EE929BA79664"
    case Imu2 => "84b70b01-8869-4a23-ab4f-fbfd1a25a925"
  }

  /**
   * What one inherited `start_notify` / `stop_notify` call did: its result and
   * the characteristic the transport was asked about, if it was asked at all.
   */
  datatype NotifyOutcome = NotifyOutcome(result: bool, issued: Option<string>)

  /**
   * The subscription call of `start_imu1_notify` / `start_imu2_notify` and
   * the whole of `stop_imu1_notify` / `stop_imu2_notify`, through the
   * inherited `start_notify` / `stop_notify`: without a connected client no
   * transport call is made and the result is `False` (the newer generic
   * `BLEService.stop_notify` reports `True` there); otherwise the IMU's own
   * characteristic is subscribed or unsubscribed and the result is the
   * transport's outcome.
   */
  function ImuSubscriptionCall(imu: Imu, connected: bool, transportOk: bool): (n: NotifyOutcome)
    ensures n.issued.Some? <==> connected
    ensures n.issued.Some? ==> n.issued.value == ImuUuid(imu)
    ensures n.result <==> n.issued.Some? && transportOk
    ensures forall other: Imu :: other != imu ==> n.issued != Some(ImuUuid(other))
  {
    if !connected then NotifyOutcome(false, None)
    else NotifyOutcome(transportOk, Some(ImuUuid(imu)))
  }
}
