/**
 * The connection-holding BLE service (src/model/ble_service.py): whether a
 * client exists, whether the last connect succeeded, which device it was,
 * and the guarded read, write and notification calls.
 */
module BleServiceModel {
  import opened Wrappers
  import opened ByteCodec
  import opened Transport

  /** `BLEDeviceInfo`: address, display name and signal strength. */
  datatype DeviceInfo = DeviceInfo(address: string, name: string, rssi: int)

  /** A device as the scanner reports it: name and rssi may be missing. */
  datatype Discovered = Discovered(address: string, name: Option<string>, rssi: Option<int>)

  /**
   * `BLEDeviceInfo.from_discovered_device`: a missing or empty name becomes
   * "Unknown Device" and a missing rssi becomes 0 (a zero rssi stays 0).
   */
  function FromDiscovered(d: Discovered): (info: DeviceInfo)
    ensures info.address == d.address
    ensures info.name != ""
    ensures info.name == (if d.name.Some? && d.name.value != "" then d.name.value else "Unknown Device")
    ensures info.rssi == d.rssi.GetOr(0)
  {
    DeviceInfo(d.address,
               if d.name.Some? && d.name.value != "" then d.name.value else "Unknown Device",
               if d.rssi.Some? && d.rssi.value != 0 then d.rssi.value else 0)
  }

  /**
   * `BLEService`. `hasClient` stands for `client is not None` and
   * `connectedFlag` for `_connected`; `log` records the transport calls.
   */
  class BleService {
    var hasClient: bool
    var connectedFlag: bool
    var connectedDevice: Option<DeviceInfo>
    var log: seq<Call>

    /** Whenever the flag is up there is a client and a recorded device. */
    predicate Valid()
      reads this
    {
      connectedFlag ==> hasClient && connectedDevice.Some?
    }

    constructor ()
      ensures Valid()
      ensures !hasClient && !connectedFlag && connectedDevice == None && log == []
    {
      hasClient := false;
      connectedFlag := false;
      connectedDevice := None;
      log := [];
    }

    /** `is_connected`: a client exists and the last connect succeeded. */
    function IsConnected(): (r: bool)
      reads this
      ensures r <==> hasClient && connectedFlag
      ensures Valid() && r ==> connectedDevice.Some?
    {
      hasClient && connectedFlag
    }

    /**
     * `connect`: a new client is created for the address either way; on
     * success the flag is raised and the device recorded, on failure the flag
     * is lowered and the previously recorded device is left as it was.
     */
    method Connect(device: DeviceInfo, ok: bool) returns (r: bool)
      requires Valid()
      modifies this
      ensures Valid()
      ensures r == ok && hasClient && connectedFlag == ok
      ensures connectedDevice == if ok then Some(device) else old(connectedDevice)
      ensures log == old(log) + [Call.Connect(device.address)]
    {
      hasClient := true;
      log := log + [Call.Connect(device.address)];
      if ok {
        connectedFlag := true;
        connectedDevice := Some(device);
        r := true;
      } else {
        connectedFlag := false;
        r := false;
      }
    }

    /**
     * `disconnect`: `True` at once when not connected; otherwise asks the
     * client, and on success lowers the flag and forgets the device (the
     * client object itself is kept). A failure returns `False` and leaves the
     * session connected.
     */
    method Disconnect(ok: bool) returns (r: bool)
      requires Valid()
      modifies this
      ensures Valid()
      ensures r <==> !old(IsConnected()) || ok
      ensures hasClient == old(hasClient)
      ensures log == if old(IsConnected()) then old(log) + [Call.Disconnect] else old(log)
      ensures old(IsConnected()) && ok ==> !connectedFlag && connectedDevice == None
      ensures !(old(IsConnected()) && ok) ==> connectedFlag == old(connectedFlag) && connectedDevice == old(connectedDevice)
    {
      if !IsConnected() {
        return true;
      }
      log := log + [Call.Disconnect];
      if ok {
        connectedFlag := false;
        connectedDevice := None;
        r := true;
      } else {
        r := false;
      }
    }

    /** `read_characteristic`: `None` when not connected, else the reply (`None` when the read raised). */
    method ReadCharacteristic(uuid: Uuid, reply: Option<seq<byte>>) returns (r: Option<seq<byte>>)
      modifies this`log
      ensures r == if IsConnected() then reply else None
      ensures log == if IsConnected() then old(log) + [Read(uuid)] else old(log)
    {
      if !IsConnected() {
        return None;
      }
      log := log + [Read(uuid)];
      r := reply;
    }

    /** `write_characteristic`: `False` when not connected, else whether the write succeeded. */
    method WriteCharacteristic(uuid: Uuid, data: seq<byte>, ok: bool) returns (r: bool)
      modifies this`log
      ensures r <==> IsConnected() && ok
      ensures log == if IsConnected() then old(log) + [Write(uuid, data)] else old(log)
    {
      if !IsConnected() {
        return false;
      }
      log := log + [Write(uuid, data)];
      r := ok;
    }

    /** `start_notify`: `False` when not connected, else whether the subscription succeeded. */
    method StartNotify(uuid: Uuid, ok: bool) returns (r: bool)
      modifies this`log
      ensures r <==> IsConnected() && ok
      ensures log == if IsConnected() then old(log) + [Call.StartNotify(uuid)] else old(log)
    {
      if !IsConnected() {
        return false;
      }
      log := log + [Call.StartNotify(uuid)];
      r := ok;
    }

    /**
     * `stop_notify`: `True` when not connected (there is nothing to stop),
     * else whether the unsubscription succeeded.
     */
    method StopNotify(uuid: Uuid, ok: bool) returns (r: bool)
      modifies this`log
      ensures r <==> !IsConnected() || ok
      ensures log == if IsConnected() then old(log) + [Call.StopNotify(uuid)] else old(log)
    {
      if !IsConnected() {
        return true;
      }
      log := log + [Call.StopNotify(uuid)];
      r := ok;
    }
  }
}
