/**
 * The connection presenter (src/presenter/connection_presenter.py): connects
 * and disconnects through the BLE service and reports each outcome to the
 * view.
 */
module ConnectionPresenterModel {
  import opened Wrappers
  import opened Transport
  import opened BleServiceModel

  /** One `show_connection_status(result, device_info, message)` call. */
  datatype StatusReport = StatusReport(connected: bool, device: Option<DeviceInfo>, message: string)

  /** The report for a connect attempt with the given result. */
  function ConnectReport(device: DeviceInfo, result: bool): (s: StatusReport)
    ensures s.connected == result
    ensures s.device.Some? <==> result
    ensures result ==> s.device == Some(device) && s.message == "Connected to " + device.name
    ensures !result ==> s.message == "Connection failed"
  {
    if result then StatusReport(true, Some(device), "Connected to " + device.name)
    else StatusReport(false, None, "Connection failed")
  }

  class ConnectionPresenter {
    const service: BleService
    var reports: seq<StatusReport>

    constructor (service: BleService)
      ensures this.service == service && reports == []
    {
      this.service := service;
      reports := [];
    }

    /** `connect_to_device`: returns the service's result and reports it. */
    method ConnectToDevice(device: DeviceInfo, ok: bool) returns (r: bool)
      requires service.Valid()
      modifies this`reports, service
      ensures service.Valid()
      ensures r == ok && service.IsConnected() == ok
      ensures service.connectedDevice == if ok then Some(device) else old(service.connectedDevice)
      ensures service.log == old(service.log) + [Call.Connect(device.address)]
      ensures reports == old(reports) + [ConnectReport(device, r)]
    {
      r := service.Connect(device, ok);
      reports := reports + [ConnectReport(device, r)];
    }

    /**
     * `disconnect`: returns the service's result, but reports "Disconnected"
     * even when the service failed to disconnect.
     */
    method Disconnect(ok: bool) returns (r: bool)
      requires service.Valid()
      modifies this`reports, service
      ensures service.Valid()
      ensures r <==> !old(service.IsConnected()) || ok
      ensures old(service.IsConnected()) && ok ==> !service.IsConnected() && service.connectedDevice == None
      ensures !(old(service.IsConnected()) && ok) ==>
        service.IsConnected() == old(service.IsConnected()) && service.connectedDevice == old(service.connectedDevice)
      ensures service.log == if old(service.IsConnected()) then old(service.log) + [Call.Disconnect] else old(service.log)
      ensures reports == old(reports) + [StatusReport(false, None, "Disconnected")]
    {
      r := service.Disconnect(ok);
      reports := reports + [StatusReport(false, None, "Disconnected")];
    }

    /** `is_connected`: the service's answer. */
    function IsConnected(): (r: bool)
      reads service
      ensures r <==> service.hasClient && service.connectedFlag
    {
      service.IsConnected()
    }

    /**
     * `get_connected_device`: the service's recorded device, which is present
     * whenever the service is connected (after a failed connect it is the
     * previously recorded one).
     */
    function GetConnectedDevice(): (r: Option<DeviceInfo>)
      reads service
      ensures r == service.connectedDevice
      ensures service.Valid() && IsConnected() ==> r.Some?
    {
      service.connectedDevice
    }
  }
}
