/**
 * The sensor section of the configuration blob (src/view/sensor_view.py):
 * bytes 11 and 12 hold the sensor update interval as an unsigned
 * little-endian 16-bit number. Applying a rate replaces that slice through
 * Python slice assignment, so a blob shorter than 13 bytes grows instead.
 */
module SensorConfigModel {
  import opened Wrappers
  import opened ByteCodec
  import opened ImuConfigModel

  const RateStart: nat := 11
  const RateEnd: nat := 13

  function Min(a: nat, b: nat): nat {
    if a <= b then a else b
  }

  /** `int.from_bytes(data[11:13], 'little')`; the slice is cut short on short blobs. */
  function Interval(b: seq<byte>): (n: nat)
    ensures n < 65536
    ensures |b| >= RateEnd ==> n == LeUnsigned(b[RateStart..RateEnd])
    ensures |b| <= RateStart ==> n == 0
  {
    LeUnsigned(b[Min(RateStart, |b|)..Min(RateEnd, |b|)])
  }

  /** `_on_config`: the interval shown in the dialog, if the read gave a blob. */
  function ShownInterval(data: Option<seq<byte>>): (r: Option<nat>)
    ensures r.Some? <==> data.Some? && data.value != []
    ensures r.Some? ==> r.value == Interval(data.value)
  {
    if data.None? || data.value == [] then None else Some(Interval(data.value))
  }

  /**
   * `_handle_config_apply` for rate `rate`: nothing is written when the read
   * gives nothing, and a rate outside 0..65535 raises `OverflowError` before
   * anything is written.
   */
  function ApplyRate(data: Option<seq<byte>>, rate: int): (r: ApplyOutcome)
    ensures r.NothingRead? <==> data.None? || data.value == []
    ensures r.Written? <==> data.Some? && data.value != [] && 0 <= rate < 65536
  {
    if data.None? || data.value == [] then NothingRead
    else if !(0 <= rate < 65536) then Raised
    else
      var b := data.value;
      Written(b[..Min(RateStart, |b|)] + LeBytes(rate, 2) + b[Min(RateEnd, |b|)..])
  }

  /**
   * `_handle_config_apply`: copies the blob into a new buffer and replaces
   * bytes 11-12 with the rate; on a blob too short to hold them, the slice
   * assignment inserts the two bytes at its end instead.
   */
  method ApplySensorRate(data: Option<seq<byte>>, rate: int) returns (r: ApplyOutcome)
    ensures r == ApplyRate(data, rate)
  {
    if data.None? || data.value == [] {
      return NothingRead;
    }
    if !(0 <= rate < 65536) {
      return Raised;
    }
    var src := data.value;
    var encoded := LeBytes(rate, 2);
    if |src| < RateEnd {
      return Written(src[..Min(RateStart, |src|)] + encoded);
    }
    var config := new byte[|src|];
    var i := 0;
    while i < |src|
      invariant 0 <= i <= |src|
      invariant config[..i] == src[..i]
    {
      config[i] := src[i];
      i := i + 1;
    }
    config[RateStart] := encoded[0];
    config[RateStart + 1] := encoded[1];
    assert config[..] == src[..RateStart] + encoded + src[RateEnd..];
    r := Written(config[..]);
  }

  /** The written blob keeps the length of the blob read exactly when that blob already holds bytes 11-12. */
  lemma RateLength(data: Option<seq<byte>>, rate: int)
    requires ApplyRate(data, rate).Written?
    ensures |ApplyRate(data, rate).blob| == |data.value| <==> |data.value| >= RateEnd
    ensures |data.value| >= RateStart ==> |ApplyRate(data, rate).blob| >= RateEnd
  {
  }

  /** On a full-size blob only bytes 11 and 12 change, and they hold the rate. */
  lemma RateOwnsItsBytes(data: Option<seq<byte>>, rate: int)
    requires ApplyRate(data, rate).Written? && |data.value| >= RateEnd
    ensures var blob := ApplyRate(data, rate).blob;
            && blob[RateStart..RateEnd] == LeBytes(rate, 2)
            && forall i :: 0 <= i < |blob| && i != RateStart && i != RateStart + 1 ==> blob[i] == data.value[i]
  {
    var b := data.value;
    var blob := ApplyRate(data, rate).blob;
    assert blob == b[..RateStart] + LeBytes(rate, 2) + b[RateEnd..];
    forall i | 0 <= i < |blob| && i != RateStart && i != RateStart + 1
      ensures blob[i] == b[i]
    {
      if i < RateStart {
        assert blob[i] == b[..RateStart][i];
      } else {
        assert blob[i] == b[RateEnd..][i - RateEnd];
      }
    }
  }

  /** Reopening the dialog after applying a rate shows that rate, once the blob reaches byte 11. */
  lemma RateRoundTrip(data: Option<seq<byte>>, rate: int)
    requires ApplyRate(data, rate).Written? && |data.value| >= RateStart
    ensures ShownInterval(Some(ApplyRate(data, rate).blob)) == Some(rate)
  {
    var b := data.value;
    var blob := ApplyRate(data, rate).blob;
    assert blob[RateStart..RateEnd] == LeBytes(rate, 2);
    LeUnsignedOfLeBytes(rate, 2);
  }

  /** A blob shorter than 10 bytes gets the rate appended where the dialog never reads it back. */
  lemma ShortBlobLosesRate(data: Option<seq<byte>>, rate: int)
    requires ApplyRate(data, rate).Written? && |data.value| < RateStart - 1
    ensures |ApplyRate(data, rate).blob| <= RateStart
    ensures ShownInterval(Some(ApplyRate(data, rate).blob)) == Some(0)
  {
  }

  /** Applying a rate leaves both IMU units' bytes as they were. */
  lemma RateKeepsImuBytes(u: Unit, data: Option<seq<byte>>, rate: int, k: nat)
    requires ApplyRate(data, rate).Written? && |data.value| >= RateEnd && k < 5
    ensures ApplyRate(data, rate).blob[Offsets(u)[k]] == data.value[Offsets(u)[k]]
  {
    RateOwnsItsBytes(data, rate);
    OffsetsDisjoint(Offsets(u)[k]);
    assert Offsets(u)[k] in Offsets(u);
  }

  /** Applying an IMU unit's settings leaves the sensor interval as it was. */
  lemma ImuApplyKeepsInterval(u: Unit, data: Option<seq<byte>>, c: ImuChoice, t: ImuTables)
    requires ApplyImu(u, data, c, t).Written?
    ensures Interval(ApplyImu(u, data, c, t).blob) == Interval(data.value)
  {
    var b := data.value;
    var blob := ApplyImu(u, data, c, t).blob;
    ApplyOwnsOnlyItsBytes(u, data, c, t);
    forall i | RateStart <= i < |b|
      ensures blob[i] == b[i]
    {
      OffsetsDisjoint(i);
    }
    assert blob[Min(RateStart, |blob|)..Min(RateEnd, |blob|)] == b[Min(RateStart, |b|)..Min(RateEnd, |b|)];
  }
}
