/**
 * The older connection dialog (src/views/connection_dialog.py): it starts
 * scanning as soon as it is built, always rescans on "scan again", and
 * closes itself whenever "connect" is pressed.
 */
module LegacyConnectionDialogModel {
  import opened Wrappers
  import opened DeviceListModel
  import opened ConnectionDialogModel

  class LegacyConnectionDialog {
    const list: DeviceList
    /** Whether a connect callback was passed to the constructor. */
    const callbackSet: bool
    var selectedDevice: Option<DeviceEntry>
    var destroyed: bool
    var infoText: string
    var connectEnabled: bool
    var requests: seq<DialogRequest>

    predicate Valid()
      reads this, list
    {
      list.Valid() && list.hasCommand
    }

    /** Construction schedules the first scan. */
    constructor (callback: bool)
      ensures Valid() && fresh(list)
      ensures list.rows == [] && !list.destroyed
      ensures callbackSet == callback && selectedDevice == None && !destroyed
      ensures requests == [ScanRequested]
    {
      list := new DeviceList(true);
      callbackSet := callback;
      selectedDevice := None;
      destroyed := false;
      infoText := "";
      connectEnabled := false;
      requests := [ScanRequested];
    }

    /** `_show_device_info`. */
    method ShowDeviceInfo(d: DeviceEntry)
      modifies this`selectedDevice, this`infoText, this`connectEnabled
      ensures destroyed ==> selectedDevice == old(selectedDevice) && infoText == old(infoText)
                            && connectEnabled == old(connectEnabled)
      ensures !destroyed ==> selectedDevice == Some(d) && infoText == InfoText(d) && connectEnabled
    {
      if destroyed {
        return;
      }
      infoText := InfoText(d);
      connectEnabled := true;
      selectedDevice := Some(d);
    }

    /** A click on row `row`: the list selects it and forwards its device here. */
    method ClickRow(row: nat)
      requires Valid() && row < |list.rows|
      modifies list`selectedRow, this`selectedDevice, this`infoText, this`connectEnabled
      ensures Valid()
      ensures !list.destroyed ==> list.selectedRow == Some(row)
      ensures list.destroyed ==> list.selectedRow == old(list.selectedRow)
      ensures !list.destroyed && !destroyed ==>
                && selectedDevice == Some(old(list.rows[row]))
                && infoText == InfoText(old(list.rows[row]))
                && connectEnabled
      ensures list.destroyed || destroyed ==>
                && selectedDevice == old(selectedDevice)
                && infoText == old(infoText)
                && connectEnabled == old(connectEnabled)
    {
      var forwarded := list.Select(row);
      if forwarded.Some? {
        ShowDeviceInfo(forwarded.value);
      }
    }

    /** The start of `_start_scanning`: the list is emptied before the scanner runs. */
    method BeginScan()
      requires Valid()
      modifies list`rows, list`devices, list`selectedRow
      ensures Valid()
      ensures !destroyed && !list.destroyed ==> list.rows == [] && list.devices == map[] && list.selectedRow == None
      ensures destroyed ==> list.rows == old(list.rows) && list.devices == old(list.devices)
    {
      if destroyed {
        return;
      }
      list.Clear();
    }

    /** The scanner's detection callback: only named devices are listed. */
    method DeviceDetected(name: string, address: string, rssi: int)
      requires Valid()
      modifies list`rows, list`devices
      ensures Valid()
      ensures destroyed || name == "" ==> list.rows == old(list.rows) && list.devices == old(list.devices)
      ensures !destroyed && name != "" && !list.destroyed && address !in old(list.devices) ==>
                list.rows == old(list.rows) + [DeviceEntry(name, address, rssi)]
    {
      if destroyed || name == "" {
        return;
      }
      list.Add(name, address, rssi);
    }

    /** `_on_scan_again`: forgets the selection and always schedules a new scan. */
    method OnScanAgain()
      modifies this`selectedDevice, this`infoText, this`connectEnabled, this`requests
      ensures destroyed ==> selectedDevice == old(selectedDevice) && requests == old(requests)
      ensures !destroyed ==> selectedDevice == None && infoText == "" && !connectEnabled
                             && requests == old(requests) + [ScanRequested]
    {
      if destroyed {
        return;
      }
      infoText := "";
      connectEnabled := false;
      selectedDevice := None;
      requests := requests + [ScanRequested];
    }

    /**
     * `_on_connect`: the selected device goes to the callback when both
     * exist, and the dialog is destroyed in every case where it was still
     * open.
     */
    method OnConnect()
      modifies this`requests, this`destroyed
      ensures old(destroyed) ==> requests == old(requests) && destroyed
      ensures !old(destroyed) ==> destroyed
      ensures !old(destroyed) && selectedDevice.Some? && callbackSet ==>
                requests == old(requests) + [ConnectRequested(selectedDevice.value)]
      ensures !(selectedDevice.Some? && callbackSet) ==> requests == old(requests)
    {
      if destroyed {
        return;
      }
      if selectedDevice.Some? && callbackSet {
        requests := requests + [ConnectRequested(selectedDevice.value)];
      }
      Destroy();
    }

    /** `destroy`. */
    method Destroy()
      modifies this`destroyed
      ensures destroyed
    {
      destroyed := true;
    }
  }
}
