/**
 * The IMU vector characteristic (src/model/imu.py): 18 bytes holding nine
 * little-endian int16 readings, accelerometer x, y, z, then gyroscope
 * x, y, z, then magnetometer x, y, z.
 */
module ImuModel {
  import opened Wrappers
  import opened ByteCodec

  const PayloadLength: nat := 18

  datatype Axes = Axes(x: int, y: int, z: int)

  /** `IMUData`: three axis triples plus the raw payload it was decoded from (`None` by default). */
  datatype ImuData = ImuData(accel: Axes, gyro: Axes, mag: Axes, rawData: Option<seq<byte>>)

  predicate InInt16(v: int) { -32768 <= v < 32768 }

  predicate AxesInInt16(a: Axes) { InInt16(a.x) && InInt16(a.y) && InInt16(a.z) }

  /** The nine readings in wire order. */
  function Readings(d: ImuData): seq<int> {
    [d.accel.x, d.accel.y, d.accel.z, d.gyro.x, d.gyro.y, d.gyro.z, d.mag.x, d.mag.y, d.mag.z]
  }

  /** `IMUData()` with every keyword argument left at its default. */
  function Default(): (d: ImuData)
    ensures forall k :: 0 <= k < 9 ==> Readings(d)[k] == 0
    ensures d.rawData == None
  {
    ImuData(Axes(0, 0, 0), Axes(0, 0, 0), Axes(0, 0, 0), None)
  }

  /** The record built from nine readings in wire order. */
  function FromReadings(vs: seq<int>, raw: seq<byte>): ImuData
    requires |vs| == 9
  {
    ImuData(Axes(vs[0], vs[1], vs[2]), Axes(vs[3], vs[4], vs[5]), Axes(vs[6], vs[7], vs[8]), Some(raw))
  }

  /** `IMUData.from_bytes`: `None` unless the payload is exactly 18 bytes. */
  function FromBytes(data: seq<byte>): (r: Option<ImuData>)
    ensures r.Some? <==> |data| == PayloadLength
    ensures r.Some? ==> r.value.rawData == Some(data)
    ensures r.Some? ==> AxesInInt16(r.value.accel) && AxesInInt16(r.value.gyro) && AxesInInt16(r.value.mag)
  {
    if |data| != PayloadLength then None
    else Some(FromReadings(Int16s(data), data))
  }

  /** `struct.pack('<9h', ...)` of the nine readings: the inverse of `FromBytes`. */
  function Encode(d: ImuData): (s: seq<byte>)
    requires AxesInInt16(d.accel) && AxesInInt16(d.gyro) && AxesInInt16(d.mag)
    ensures |s| == PayloadLength
  {
    PackInt16s(Readings(d))
  }

  /** Reading `k` (in wire order) of a decoded payload is the signed word at bytes `2k, 2k+1`. */
  lemma FieldLayout(data: seq<byte>, k: nat)
    requires |data| == PayloadLength && k < 9
    ensures FromBytes(data).Some?
    ensures Readings(FromBytes(data).value)[k] == LeSigned(data[2 * k..2 * k + 2])
  {
    Int16sAt(data, k);
  }

  /** Re-encoding the nine decoded readings reproduces the 18 payload bytes. */
  lemma DecodeEncode(data: seq<byte>)
    requires |data| == PayloadLength
    ensures FromBytes(data).Some?
    ensures Encode(FromBytes(data).value) == data
  {
    var vs := Int16s(data);
    assert Readings(FromBytes(data).value) == vs;
    PackOfUnpack(data);
  }

  /** Every in-range reading triple survives encoding and decoding. */
  lemma EncodeDecode(d: ImuData)
    requires AxesInInt16(d.accel) && AxesInInt16(d.gyro) && AxesInInt16(d.mag)
    ensures FromBytes(Encode(d)) == Some(d.(rawData := Some(Encode(d))))
  {
    UnpackOfPack(Readings(d));
  }
}
