/**
 * The stand-alone debugging tool (ble_debug_app.py): `BLEDebugService`, a
 * minimal client wrapper whose calls are guarded on the presence of a client
 * (not on its `connected` flag), and `parse_imu_data`, which guesses what a
 * characteristic value holds from its bytes and renders it as text.
 */
module DebugApp {
  import opened Wrappers
  import opened ByteCodec
  import opened Transport
  import ImuModel

  // ---------------------------------------------------------------------
  // The payload classifier

  /** A printable ASCII byte, 0x20..0x7E. */
  predicate Printable(b: byte) { 0x20 <= b <= 0x7E }

  /** The characters of bytes that are all printable: `data.decode('ascii')`. */
  function AsciiText(data: seq<byte>): (text: string)
    ensures |text| == |data|
    ensures forall i :: 0 <= i < |data| ==> text[i] as int == data[i]
  {
    seq(|data|, i requires 0 <= i < |data| => data[i] as char)
  }

  /** The ASCII column of the hex dump: printable bytes as themselves, every other byte as '.'. */
  function DumpText(data: seq<byte>): (text: string)
    ensures |text| == |data|
    ensures forall i :: 0 <= i < |data| ==> text[i] == if Printable(data[i]) then data[i] as char else '.'
  {
    seq(|data|, i requires 0 <= i < |data| => if Printable(data[i]) then data[i] as char else '.')
  }

  /** What `parse_imu_data` made of a payload, before rendering it as text. */
  datatype Reading =
    | NoData
    | Ascii(text: string)
    | UuidValue(bytes: seq<byte>)
    | UInt32(unsigned: nat)
    | Imu(values: seq<int>)
    | TwoInt32(first: int, second: int)
    | ByteValue(byteValue: nat)
    | Int16(value: int)
    | ThreeInt32(first: int, second: int, third: int)
    | HexDump(hex: string, ascii: string)

  /**
   * The decision `parse_imu_data` takes: nothing for an empty payload, text
   * when every byte is printable, whatever the length; otherwise by length
   * 16, 4, 18, 8, 1, 2 and 12, and a hex and ASCII dump for every other
   * length. None of the guarded decodings can fail at the length that selects
   * it, so the fall-through paths of the source are never taken.
   */
  function Classify(data: seq<byte>): (r: Reading)
    ensures r.NoData? <==> data == []
    ensures r.Ascii? <==> data != [] && forall i :: 0 <= i < |data| ==> Printable(data[i])
    ensures r.Ascii? ==> r.text == AsciiText(data)
    ensures !r.NoData? && !r.Ascii? && |data| !in {16, 4, 18, 8, 1, 2, 12} ==>
              r == HexDump(HexJoin(data), DumpText(data))
  {
    if data == [] then NoData
    else if forall i :: 0 <= i < |data| ==> Printable(data[i]) then Ascii(AsciiText(data))
    else if |data| == 16 then UuidValue(data)
    else if |data| == 4 then UInt32(LeUnsigned(data))
    else if |data| == 18 then Imu(Int16s(data))
    else if |data| == 8 then TwoInt32(LeSigned(data[0..4]), LeSigned(data[4..8]))
    else if |data| == 1 then ByteValue(data[0])
    else if |data| == 2 then Int16(LeSigned(data))
    else if |data| == 12 then ThreeInt32(LeSigned(data[0..4]), LeSigned(data[4..8]), LeSigned(data[8..12]))
    else HexDump(HexJoin(data), DumpText(data))
  }

  /**
   * The length dispatch of a payload with a non-printable byte: which kind of
   * reading each length gets.
   */
  lemma DispatchByLength(data: seq<byte>)
    requires exists i :: 0 <= i < |data| && !Printable(data[i])
    ensures |data| == 16 <==> Classify(data).UuidValue?
    ensures |data| == 4 <==> Classify(data).UInt32?
    ensures |data| == 18 <==> Classify(data).Imu?
    ensures |data| == 8 <==> Classify(data).TwoInt32?
    ensures |data| == 1 <==> Classify(data).ByteValue?
    ensures |data| == 2 <==> Classify(data).Int16?
    ensures |data| == 12 <==> Classify(data).ThreeInt32?
    ensures |data| !in {16, 4, 18, 8, 1, 2, 12} <==> Classify(data).HexDump?
  {
  }

  /** A non-printable 18-byte payload is read exactly as `IMUData.from_bytes` reads it. */
  lemma ImuAgreesWithModel(data: seq<byte>)
    requires |data| == 18 && exists i :: 0 <= i < |data| && !Printable(data[i])
    ensures ImuModel.FromBytes(data).Some?
    ensures Classify(data) == Imu(ImuModel.Readings(ImuModel.FromBytes(data).value))
  {
  }

  /**
   * The classification loses nothing: two payloads that are classified alike
   * are the same payload.
   */
  lemma {:induction false} ClassifyInjective(a: seq<byte>, b: seq<byte>)
    requires Classify(a) == Classify(b)
    ensures a == b
  {
    match Classify(a)
    case NoData =>
    case Ascii(text) =>
      assert |a| == |b|;
      forall i | 0 <= i < |a| ensures a[i] == b[i] {
        assert AsciiText(a)[i] == AsciiText(b)[i];
      }
    case UuidValue(_) =>
    case UInt32(v) =>
      LeBytesOfLeUnsigned(a);
      LeBytesOfLeUnsigned(b);
    case Imu(vs) =>
      PackOfUnpack(a);
      PackOfUnpack(b);
    case TwoInt32(x, y) =>
      Int32sDetermine(a, 2);
      Int32sDetermine(b, 2);
      SignedBytesRoundTrip(a[0..4]);
      SignedBytesRoundTrip(b[0..4]);
      SignedBytesRoundTrip(a[4..8]);
      SignedBytesRoundTrip(b[4..8]);
    case ByteValue(v) =>
      assert a == [a[0]] && b == [b[0]];
    case Int16(v) =>
      SignedBytesRoundTrip(a);
      SignedBytesRoundTrip(b);
    case ThreeInt32(x, y, z) =>
      Int32sDetermine(a, 3);
      Int32sDetermine(b, 3);
      SignedBytesRoundTrip(a[0..4]);
      SignedBytesRoundTrip(b[0..4]);
      SignedBytesRoundTrip(a[4..8]);
      SignedBytesRoundTrip(b[4..8]);
      SignedBytesRoundTrip(a[8..12]);
      SignedBytesRoundTrip(b[8..12]);
    case HexDump(hex, _) =>
      HexJoinInjective(a, b);
  }

  /** A payload of `n` 4-byte words is the concatenation of its words. */
  lemma Int32sDetermine(s: seq<byte>, n: nat)
    requires n == 2 || n == 3
    requires |s| == 4 * n
    ensures n == 2 ==> s == s[0..4] + s[4..8]
    ensures n == 3 ==> s == s[0..4] + s[4..8] + s[8..12]
  {
  }

  // ---------------------------------------------------------------------
  // Rendering

  /** Lower-case hex digits of each byte, with no separator. */
  function HexRun(s: seq<byte>): (h: string)
    ensures |h| == 2 * |s|
  {
    if s == [] then "" else HexByte(s[0]) + HexRun(s[1..])
  }

  /** `str(uuid.UUID(bytes=...))`: 8-4-4-4-12 lower-case hex digits. */
  function UuidText(b: seq<byte>): (t: string)
    requires |b| == 16
    ensures |t| == 36
  {
    HexRun(b[0..4]) + "-" + HexRun(b[4..6]) + "-" + HexRun(b[6..8]) + "-" + HexRun(b[8..10]) + "-" + HexRun(b[10..16])
  }

  function Render(r: Reading): string {
    match r
    case NoData => "No data"
    case Ascii(text) => "ASCII: " + text
    case UuidValue(bytes) => if |bytes| == 16 then "UUID: " + UuidText(bytes) else "UUID: "
    case UInt32(v) => "Timestamp (uint32 LE): " + Decimal(v)
    case Imu(vs) =>
      if |vs| != 9 then "IMU Data:\n"
      else
        "IMU Data:\n"
        + "  Accel (mg): X=" + Decimal(vs[0]) + ", Y=" + Decimal(vs[1]) + ", Z=" + Decimal(vs[2]) + "\n"
        + "  Gyro (dps): X=" + Decimal(vs[3]) + ", Y=" + Decimal(vs[4]) + ", Z=" + Decimal(vs[5]) + "\n"
        + "  Mag  (uT): X=" + Decimal(vs[6]) + ", Y=" + Decimal(vs[7]) + ", Z=" + Decimal(vs[8])
    case TwoInt32(x, y) => "2x int32: " + Decimal(x) + ", " + Decimal(y)
    case ByteValue(v) => "Byte value: " + Decimal(v)
    case Int16(v) => "int16: " + Decimal(v)
    case ThreeInt32(x, y, z) => "3x int32: " + Decimal(x) + ", " + Decimal(y) + ", " + Decimal(z)
    case HexDump(hex, ascii) => "Hex: " + hex + "\nASCII: " + ascii
  }

  /** `BLEDebugService.parse_imu_data`: the text the tool shows for a payload. */
  function ParseImuData(data: seq<byte>): (text: string)
    ensures text == "No data" <==> data == []
    ensures Classify(data).Ascii? ==> text == "ASCII: " + AsciiText(data)
    ensures Classify(data).HexDump? ==> text == "Hex: " + HexJoin(data) + "\nASCII: " + DumpText(data)
  {
    RenderNoData(Classify(data));
    Render(Classify(data))
  }

  /** Only the empty reading renders as "No data": every other text starts differently. */
  lemma RenderNoData(r: Reading)
    ensures Render(r) == "No data" <==> r.NoData?
  {
    var text := Render(r);
    match r
    case NoData =>
    case Ascii(_) => assert text[0] == 'A';
    case UuidValue(_) => assert text[0] == 'U';
    case UInt32(_) => assert text[0] == 'T';
    case Imu(_) => assert text[0] == 'I';
    case TwoInt32(_, _) => assert text[0] == '2';
    case ByteValue(_) => assert text[0] == 'B';
    case Int16(_) => assert text[0] == 'i';
    case ThreeInt32(_, _, _) => assert text[0] == '3';
    case HexDump(_, _) => assert text[0] == 'H';
  }

  // ---------------------------------------------------------------------
  // The client wrapper

  /**
   * `BLEDebugService`: `hasClient` stands for `client is not None`; `log`
   * records the transport calls made.
   */
  class DebugService {
    var hasClient: bool
    var connected: bool
    var log: seq<Call>

    /** The flag is only ever up while a client exists. */
    predicate Valid()
      reads this
    {
      connected ==> hasClient
    }

    constructor ()
      ensures Valid()
      ensures !hasClient && !connected && log == []
    {
      hasClient := false;
      connected := false;
      log := [];
    }

    /**
     * `is_connected`: the `connected` flag alone; a `True` answer means a
     * client exists, so the guarded calls below reach the transport.
     */
    function IsConnected(): (r: bool)
      reads this
      ensures r <==> connected
      ensures Valid() && r ==> hasClient
    {
      connected
    }

    /**
     * `connect`: a client is created for the address whether or not the
     * connection then succeeds; the flag records the outcome.
     */
    method Connect(address: string, ok: bool) returns (r: bool)
      modifies this
      ensures Valid()
      ensures r == ok && connected == ok && hasClient
      ensures log == old(log) + [Call.Connect(address)]
    {
      hasClient := true;
      log := log + [Call.Connect(address)];
      connected := ok;
      r := ok;
    }

    /**
     * `disconnect`: with a client, asks it to disconnect; on success clears
     * both the client and the flag, and on failure the error propagates
     * (`raised`) with the state as it was. Without a client nothing happens.
     */
    method Disconnect(ok: bool) returns (raised: bool)
      requires Valid()
      modifies this
      ensures Valid()
      ensures raised <==> old(hasClient) && !ok
      ensures old(hasClient) ==> log == old(log) + [Call.Disconnect]
      ensures !old(hasClient) ==> log == old(log)
      ensures old(hasClient) && ok ==> !hasClient && !connected
      ensures !(old(hasClient) && ok) ==> hasClient == old(hasClient) && connected == old(connected)
    {
      raised := false;
      if hasClient {
        log := log + [Call.Disconnect];
        if ok {
          connected := false;
          hasClient := false;
        } else {
          raised := true;
        }
      }
    }

    /** `read_characteristic`: `None` without a client, else the reply (`None` when the read raised). */
    method ReadCharacteristic(uuid: Uuid, reply: Option<seq<byte>>) returns (r: Option<seq<byte>>)
      modifies this`log
      ensures r == if hasClient then reply else None
      ensures log == if hasClient then old(log) + [Read(uuid)] else old(log)
    {
      if !hasClient {
        return None;
      }
      log := log + [Read(uuid)];
      r := reply;
    }

    /** `write_characteristic`: `False` without a client, else whether the write succeeded. */
    method WriteCharacteristic(uuid: Uuid, data: seq<byte>, ok: bool) returns (r: bool)
      modifies this`log
      ensures r <==> hasClient && ok
      ensures log == if hasClient then old(log) + [Write(uuid, data)] else old(log)
    {
      if !hasClient {
        return false;
      }
      log := log + [Write(uuid, data)];
      r := ok;
    }

    /** `start_notify`: `False` without a client, else whether the subscription succeeded. */
    method StartNotify(uuid: Uuid, ok: bool) returns (r: bool)
      modifies this`log
      ensures r <==> hasClient && ok
      ensures log == if hasClient then old(log) + [Call.StartNotify(uuid)] else old(log)
    {
      if !hasClient {
        return false;
      }
      log := log + [Call.StartNotify(uuid)];
      r := ok;
    }

    /** `stop_notify`: `False` without a client, else whether the unsubscription succeeded. */
    method StopNotify(uuid: Uuid, ok: bool) returns (r: bool)
      modifies this`log
      ensures r <==> hasClient && ok
      ensures log == if hasClient then old(log) + [Call.StopNotify(uuid)] else old(log)
    {
      if !hasClient {
        return false;
      }
      log := log + [Call.StopNotify(uuid)];
      r := ok;
    }
  }
}
