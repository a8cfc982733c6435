/**
 * The IMU sections of the glove's configuration blob
 * (src/view/imu1_view.py, src/view/imu2_view.py). Each IMU view reads the
 * blob, shows five of its bytes through forward lookup tables and, on apply,
 * writes back a copy in which exactly those five bytes are replaced through
 * the reverse tables. IMU1 owns bytes 1, 2, 5, 6, 7 and IMU2 bytes 3, 4, 8,
 * 9, 10.
 *
 * The tables belong to a service that is not part of this model, so they are
 * parameters; the blob the service reads is a parameter too (`None` when the
 * read gives nothing).
 */
module ImuConfigModel {
  import opened Wrappers
  import opened ByteCodec

  datatype Unit = Imu1 | Imu2

  /**
   * The bytes a unit owns, in the order accel/gyro rate, magnetometer rate,
   * accelerometer range, gyroscope range, magnetometer range.
   */
  function Offsets(u: Unit): (o: seq<nat>)
    ensures |o| == 5
    ensures forall j, k :: 0 <= j < k < 5 ==> o[j] < o[k]
  {
    match u
    case Imu1 => [1, 2, 5, 6, 7]
    case Imu2 => [3, 4, 8, 9, 10]
  }

  /** The largest offset a unit owns: shorter blobs make the view raise `IndexError`. */
  function LastOffset(u: Unit): (n: nat)
    ensures n == Offsets(u)[4]
  {
    match u
    case Imu1 => 7
    case Imu2 => 10
  }

  /** The service's forward (`*_MAP`) and reverse (`*_REV_MAP`) tables. */
  datatype ImuTables = ImuTables(
    accelGyroFreq: map<int, string>, magFreq: map<int, string>,
    accelRange: map<int, string>, gyroRange: map<int, string>, magRange: map<int, string>,
    accelGyroFreqRev: map<string, int>, magFreqRev: map<string, int>,
    accelRangeRev: map<string, int>, gyroRangeRev: map<string, int>, magRangeRev: map<string, int>)

  /** The five settings of the IMU configuration dialog. */
  datatype ImuChoice = ImuChoice(accelGyroRate: string, magRate: string, accelRange: string,
                                 gyroRange: string, magRange: string)

  /** The result of an apply: what was written, or why nothing was. */
  datatype ApplyOutcome =
    | Written(blob: seq<byte>)
    | NothingRead     // the read gave nothing: no write, the dialog closes
    | Raised          // a lookup, index or byte conversion raised: no write, the dialog stays

  /** Whether the apply closes the dialog: every outcome except an exception. */
  predicate ClosesDialog(r: ApplyOutcome) {
    !r.Raised?
  }

  /** The reverse-table values of a choice, in offset order; `None` on a missing key. */
  function RevValues(c: ImuChoice, t: ImuTables): (vs: Option<seq<int>>)
    ensures vs.Some? <==> c.accelGyroRate in t.accelGyroFreqRev && c.magRate in t.magFreqRev
                          && c.accelRange in t.accelRangeRev && c.gyroRange in t.gyroRangeRev
                          && c.magRange in t.magRangeRev
    ensures vs.Some? ==> |vs.value| == 5
  {
    if c.accelGyroRate in t.accelGyroFreqRev && c.magRate in t.magFreqRev
       && c.accelRange in t.accelRangeRev && c.gyroRange in t.gyroRangeRev && c.magRange in t.magRangeRev
    then Some([t.accelGyroFreqRev[c.accelGyroRate], t.magFreqRev[c.magRate], t.accelRangeRev[c.accelRange],
               t.gyroRangeRev[c.gyroRange], t.magRangeRev[c.magRange]])
    else None
  }

  predicate AllBytes(vs: seq<int>) {
    forall k :: 0 <= k < |vs| ==> 0 <= vs[k] < 256
  }

  /** `_handle_config_apply`, as a value: the blob written for choice `c`, if any. */
  function ApplyImu(u: Unit, data: Option<seq<byte>>, c: ImuChoice, t: ImuTables): (r: ApplyOutcome)
    ensures r.NothingRead? <==> data.None? || data.value == []
    ensures r.Written? <==> data.Some? && |data.value| > LastOffset(u) && RevValues(c, t).Some?
                            && AllBytes(RevValues(c, t).value)
  {
    if data.None? || data.value == [] then NothingRead
    else
      var vs := RevValues(c, t);
      if vs.None? || !AllBytes(vs.value) || |data.value| <= LastOffset(u) then Raised
      else
        var o := Offsets(u);
        Written(data.value[o[0] := vs.value[0]][o[1] := vs.value[1]][o[2] := vs.value[2]]
                          [o[3] := vs.value[3]][o[4] := vs.value[4]])
  }

  /**
   * `_handle_config_apply`: copies the blob read into a new buffer and
   * overwrites the unit's five bytes in it.
   */
  method ApplyImuConfig(u: Unit, data: Option<seq<byte>>, c: ImuChoice, t: ImuTables) returns (r: ApplyOutcome)
    ensures r == ApplyImu(u, data, c, t)
  {
    if data.None? || data.value == [] {
      return NothingRead;
    }
    var vs := RevValues(c, t);
    if vs.None? || !AllBytes(vs.value) || |data.value| <= LastOffset(u) {
      return Raised;
    }
    var src := data.value;
    var config := new byte[|src|];
    var i := 0;
    while i < |src|
      invariant 0 <= i <= |src|
      invariant config[..i] == src[..i]
    {
      config[i] := src[i];
      i := i + 1;
    }
    assert config[..] == src;
    var o := Offsets(u);
    var v := vs.value;
    config[o[0]] := v[0];
    config[o[1]] := v[1];
    config[o[2]] := v[2];
    config[o[3]] := v[3];
    config[o[4]] := v[4];
    r := Written(config[..]);
  }

  /**
   * A written blob has the length of the blob read, holds the chosen
   * reverse-table values at the unit's five bytes and every other byte,
   * byte 0 included, as it was read.
   */
  lemma ApplyOwnsOnlyItsBytes(u: Unit, data: Option<seq<byte>>, c: ImuChoice, t: ImuTables)
    requires ApplyImu(u, data, c, t).Written?
    ensures var blob := ApplyImu(u, data, c, t).blob;
            && |blob| == |data.value|
            && (forall k :: 0 <= k < 5 ==> blob[Offsets(u)[k]] == RevValues(c, t).value[k])
            && (forall i :: 0 <= i < |blob| && i !in Offsets(u) ==> blob[i] == data.value[i])
            && blob[0] == data.value[0]
  {
    var blob := ApplyImu(u, data, c, t).blob;
    var o := Offsets(u);
    forall k | 0 <= k < 5
      ensures blob[o[k]] == RevValues(c, t).value[k]
    {
      assert o[k] in o;
    }
  }

  /** The two units own disjoint bytes, neither owns byte 0, and neither owns the sensor rate bytes 11 and 12. */
  lemma OffsetsDisjoint(i: nat)
    ensures !(i in Offsets(Imu1) && i in Offsets(Imu2))
    ensures 0 !in Offsets(Imu1) && 0 !in Offsets(Imu2)
    ensures i in Offsets(Imu1) || i in Offsets(Imu2) ==> 1 <= i <= 10
  {
  }

  /** Applying one unit's settings leaves the other unit's bytes as they were. */
  lemma ApplyKeepsOtherUnit(u: Unit, other: Unit, data: Option<seq<byte>>, c: ImuChoice, t: ImuTables, k: nat)
    requires u != other && k < 5
    requires ApplyImu(u, data, c, t).Written? && Offsets(other)[k] < |data.value|
    ensures ApplyImu(u, data, c, t).blob[Offsets(other)[k]] == data.value[Offsets(other)[k]]
  {
    ApplyOwnsOnlyItsBytes(u, data, c, t);
    OffsetsDisjoint(Offsets(other)[k]);
    assert Offsets(other)[k] in Offsets(other);
  }

  // ---------------------------------------------------------------------
  // Populating the dialog

  datatype PopulateOutcome =
    | Blank              // nothing read: the dialog keeps its defaults
    | Filled(c: ImuChoice)
    | Failed             // a lookup or index raised while filling the dialog

  /** `_on_config`: the settings shown for the blob read, via the forward tables. */
  function Populate(u: Unit, data: Option<seq<byte>>, t: ImuTables): (r: PopulateOutcome)
    ensures r.Blank? <==> data.None? || data.value == []
    ensures r.Filled? ==>
              var b, o := data.value, Offsets(u);
              && |b| > LastOffset(u)
              && b[o[0]] in t.accelGyroFreq && r.c.accelGyroRate == t.accelGyroFreq[b[o[0]]]
              && b[o[1]] in t.magFreq && r.c.magRate == t.magFreq[b[o[1]]]
              && b[o[2]] in t.accelRange && r.c.accelRange == t.accelRange[b[o[2]]]
              && b[o[3]] in t.gyroRange && r.c.gyroRange == t.gyroRange[b[o[3]]]
              && b[o[4]] in t.magRange && r.c.magRange == t.magRange[b[o[4]]]
    ensures r.Failed? <==>
              (&& data.Some? && data.value != []
               && (|data.value| <= LastOffset(u) ||
                   var b, o := data.value, Offsets(u);
                   !(b[o[0]] in t.accelGyroFreq && b[o[1]] in t.magFreq && b[o[2]] in t.accelRange
                     && b[o[3]] in t.gyroRange && b[o[4]] in t.magRange)))
  {
    if data.None? || data.value == [] then Blank
    else if |data.value| <= LastOffset(u) then Failed
    else
      var o := Offsets(u);
      var b := data.value;
      if b[o[0]] in t.accelGyroFreq && b[o[1]] in t.magFreq && b[o[2]] in t.accelRange
         && b[o[3]] in t.gyroRange && b[o[4]] in t.magRange
      then Filled(ImuChoice(t.accelGyroFreq[b[o[0]]], t.magFreq[b[o[1]]], t.accelRange[b[o[2]]],
                            t.gyroRange[b[o[3]]], t.magRange[b[o[4]]]))
      else Failed
  }

  /** Each reverse table inverts its forward table. */
  predicate Inverts(rev: map<string, int>, fwd: map<int, string>) {
    forall s :: s in rev ==> rev[s] in fwd && fwd[rev[s]] == s
  }

  predicate TablesInvert(t: ImuTables) {
    && Inverts(t.accelGyroFreqRev, t.accelGyroFreq) && Inverts(t.magFreqRev, t.magFreq)
    && Inverts(t.accelRangeRev, t.accelRange) && Inverts(t.gyroRangeRev, t.gyroRange)
    && Inverts(t.magRangeRev, t.magRange)
  }

  /**
   * When the reverse tables invert the forward ones, reopening the dialog
   * after a successful apply shows exactly the settings applied.
   */
  lemma ApplyThenPopulate(u: Unit, data: Option<seq<byte>>, c: ImuChoice, t: ImuTables)
    requires TablesInvert(t)
    requires ApplyImu(u, data, c, t).Written?
    ensures Populate(u, Some(ApplyImu(u, data, c, t).blob), t) == Filled(c)
  {
    ApplyOwnsOnlyItsBytes(u, data, c, t);
  }
}
