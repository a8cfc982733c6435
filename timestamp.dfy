/**
 * The timestamp characteristic (src/model/timestamp.py): 8 bytes holding an
 * unsigned little-endian count of whole seconds.
 */
module TimestampModel {
  import opened Wrappers
  import opened ByteCodec

  const PayloadLength: nat := 8

  /** `TimestampData`: the seconds value and the raw payload (`None` by default). */
  datatype TimestampData = TimestampData(unixTimestamp: int, rawData: Option<seq<byte>>)

  /** `TimestampData.from_bytes`: `None` unless the payload is exactly 8 bytes. */
  function FromBytes(data: seq<byte>): (r: Option<TimestampData>)
    ensures r.Some? <==> |data| == PayloadLength
    ensures r.Some? ==> 0 <= r.value.unixTimestamp < Pow256(8)
    ensures r.Some? ==> r.value.rawData == Some(data)
    ensures r.Some? ==> LeBytes(r.value.unixTimestamp, 8) == data
  {
    if |data| != PayloadLength then None
    else
      LeBytesOfLeUnsigned(data);
      Some(TimestampData(LeUnsigned(data), Some(data)))
  }

  /**
   * `TimestampData.current()`: the clock's whole seconds and their 8-byte
   * little-endian encoding. `clock` stands for `int(time.time())`.
   */
  function Current(clock: nat): (t: TimestampData)
    requires clock < Pow256(8)
    ensures t.unixTimestamp == clock
    ensures t.rawData.Some? && |t.rawData.value| == PayloadLength
    ensures FromBytes(t.rawData.value) == Some(t)
  {
    LeUnsignedOfLeBytes(clock, 8);
    TimestampData(clock, Some(LeBytes(clock, 8)))
  }
}
