/**
 * The ESP32 glove service (src/model/esp32_service.py): IMU and timestamp
 * reads that decode the reply, the timestamp write, and the IMU notification
 * subscriptions. The Python class inherits the connection state of
 * `BLEService`; here it holds a `BleService` and works on its state.
 */
module Esp32ServiceModel {
  import opened Wrappers
  import opened ByteCodec
  import opened Transport
  import opened BleServiceModel
  import ImuModel
  import TimestampModel

  const Imu1Uuid: Uuid := "55A58E5B-9F51-47DC-B6C7-EE929BA79664"
  const Imu2Uuid: Uuid := "84b70b01-8869-4a23-ab4f-fbfd1a25a925"
  const TimestampUuid: Uuid := "7AE63A01-7AD5-464B-803D-8A392D242CC7"

  /** A registered notification callback, told apart from others by an identifier. */
  type Callback = nat

  /**
   * `_notification_handler`: the record handed to the callback, or `None`
   * when the payload does not decode or no callback is set (then nothing is
   * called).
   */
  function NotificationHandler(data: seq<byte>, callback: Option<Callback>): (arg: Option<ImuModel.ImuData>)
    ensures arg.Some? <==> |data| == ImuModel.PayloadLength && callback.Some?
    ensures arg.Some? ==> arg == ImuModel.FromBytes(data)
  {
    if callback.None? then None else ImuModel.FromBytes(data)
  }

  class Esp32Service {
    const ble: BleService
    var imu1Callback: Option<Callback>
    var imu2Callback: Option<Callback>

    constructor ()
      ensures fresh(ble) && ble.Valid()
      ensures !ble.hasClient && !ble.connectedFlag && ble.connectedDevice == None && ble.log == []
      ensures imu1Callback == None && imu2Callback == None
    {
      ble := new BleService();
      imu1Callback := None;
      imu2Callback := None;
    }

    /**
     * `read_imu`: `None` when not connected, when the read raised (`reply`
     * is `None`) or when the payload is not 18 bytes; else the decoded record.
     */
    method ReadImu(uuid: Uuid, reply: Option<seq<byte>>) returns (r: Option<ImuModel.ImuData>)
      modifies ble`log
      ensures r.Some? <==> ble.IsConnected() && reply.Some? && |reply.value| == ImuModel.PayloadLength
      ensures r.Some? ==> r == ImuModel.FromBytes(reply.value)
      ensures ble.log == if ble.IsConnected() then old(ble.log) + [Read(uuid)] else old(ble.log)
    {
      if !ble.IsConnected() {
        return None;
      }
      ble.log := ble.log + [Read(uuid)];
      if reply.None? {
        return None;
      }
      r := ImuModel.FromBytes(reply.value);
    }

    method ReadImu1(reply: Option<seq<byte>>) returns (r: Option<ImuModel.ImuData>)
      modifies ble`log
      ensures r.Some? <==> ble.IsConnected() && reply.Some? && |reply.value| == ImuModel.PayloadLength
      ensures r.Some? ==> r == ImuModel.FromBytes(reply.value)
      ensures ble.log == if ble.IsConnected() then old(ble.log) + [Read(Imu1Uuid)] else old(ble.log)
    {
      r := ReadImu(Imu1Uuid, reply);
    }

    method ReadImu2(reply: Option<seq<byte>>) returns (r: Option<ImuModel.ImuData>)
      modifies ble`log
      ensures r.Some? <==> ble.IsConnected() && reply.Some? && |reply.value| == ImuModel.PayloadLength
      ensures r.Some? ==> r == ImuModel.FromBytes(reply.value)
      ensures ble.log == if ble.IsConnected() then old(ble.log) + [Read(Imu2Uuid)] else old(ble.log)
    {
      r := ReadImu(Imu2Uuid, reply);
    }

    /** `read_timestamp`: as `read_imu`, for the 8-byte timestamp characteristic. */
    method ReadTimestamp(reply: Option<seq<byte>>) returns (r: Option<TimestampModel.TimestampData>)
      modifies ble`log
      ensures r.Some? <==> ble.IsConnected() && reply.Some? && |reply.value| == TimestampModel.PayloadLength
      ensures r.Some? ==> r == TimestampModel.FromBytes(reply.value)
      ensures ble.log == if ble.IsConnected() then old(ble.log) + [Read(TimestampUuid)] else old(ble.log)
    {
      if !ble.IsConnected() {
        return None;
      }
      ble.log := ble.log + [Read(TimestampUuid)];
      if reply.None? {
        return None;
      }
      r := TimestampModel.FromBytes(reply.value);
    }

    /**
     * `write_timestamp`: `False` when not connected; otherwise the record's
     * raw bytes are written unchanged. A record without raw bytes makes the
     * client call raise, so it writes nothing and gives `False`.
     */
    method WriteTimestamp(t: TimestampModel.TimestampData, ok: bool) returns (r: bool)
      modifies ble`log
      ensures r <==> ble.IsConnected() && t.rawData.Some? && ok
      ensures ble.log == if ble.IsConnected() && t.rawData.Some?
                         then old(ble.log) + [Write(TimestampUuid, t.rawData.value)]
                         else old(ble.log)
    {
      if !ble.IsConnected() || t.rawData.None? {
        return false;
      }
      ble.log := ble.log + [Write(TimestampUuid, t.rawData.value)];
      r := ok;
    }

    /** `start_imu_notify`: `False` when not connected, else whether subscribing succeeded. */
    method StartImuNotify(uuid: Uuid, ok: bool) returns (r: bool)
      modifies ble`log
      ensures r <==> ble.IsConnected() && ok
      ensures ble.log == if ble.IsConnected() then old(ble.log) + [Call.StartNotify(uuid)] else old(ble.log)
    {
      if !ble.IsConnected() {
        return false;
      }
      ble.log := ble.log + [Call.StartNotify(uuid)];
      r := ok;
    }

    /** `start_imu1_notify`: the callback is stored first, even if subscribing then fails. */
    method StartImu1Notify(callback: Option<Callback>, ok: bool) returns (r: bool)
      modifies this`imu1Callback, ble`log
      ensures imu1Callback == callback
      ensures r <==> ble.IsConnected() && ok
      ensures ble.log == if ble.IsConnected() then old(ble.log) + [Call.StartNotify(Imu1Uuid)] else old(ble.log)
    {
      imu1Callback := callback;
      r := StartImuNotify(Imu1Uuid, ok);
    }

    /** `start_imu2_notify`: the callback is stored first, even if subscribing then fails. */
    method StartImu2Notify(callback: Option<Callback>, ok: bool) returns (r: bool)
      modifies this`imu2Callback, ble`log
      ensures imu2Callback == callback
      ensures r <==> ble.IsConnected() && ok
      ensures ble.log == if ble.IsConnected() then old(ble.log) + [Call.StartNotify(Imu2Uuid)] else old(ble.log)
    {
      imu2Callback := callback;
      r := StartImuNotify(Imu2Uuid, ok);
    }

    /**
     * `stop_imu1_notify` / `stop_imu2_notify`: unlike the inherited
     * `stop_notify`, `False` when not connected.
     */
    method StopImuNotify(uuid: Uuid, ok: bool) returns (r: bool)
      modifies ble`log
      ensures r <==> ble.IsConnected() && ok
      ensures ble.log == if ble.IsConnected() then old(ble.log) + [Call.StopNotify(uuid)] else old(ble.log)
    {
      if !ble.IsConnected() {
        return false;
      }
      ble.log := ble.log + [Call.StopNotify(uuid)];
      r := ok;
    }
  }
}
