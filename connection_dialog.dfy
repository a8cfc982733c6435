/**
 * The selection and connect rules of the connection dialog
 * (src/view/connection_dialog.py). Scanning itself is left to the scanner;
 * what is modelled is which device is selected, what the info line says and
 * what the dialog asks its owner to do.
 */
module ConnectionDialogModel {
  import opened Wrappers
  import opened ByteCodec
  import opened DeviceListModel

  /** Work the dialog hands to the event loop. */
  datatype DialogRequest = ScanRequested | ConnectRequested(device: DeviceEntry)

  /** The info line for a selected device: name, address and RSSI. */
  function InfoText(d: DeviceEntry): (text: string)
    ensures |text| > |d.name| + |d.address| + 4
    ensures text[..|d.name|] == d.name && text[|d.name|..|d.name| + 2] == ", "
    ensures text[|d.name| + 2..|d.name| + 2 + |d.address|] == d.address
  {
    d.name + ", " + d.address + ", " + Decimal(d.rssi)
  }

  class ConnectionDialog {
    const list: DeviceList
    /** Whether the owning view has an event loop to schedule work on. */
    const masterHasLoop: bool
    var selectedDevice: Option<DeviceEntry>
    var destroyed: bool
    var infoText: string
    var connectEnabled: bool
    var connectCallbackSet: bool
    var requests: seq<DialogRequest>

    predicate Valid()
      reads this, list
    {
      list.Valid() && list.hasCommand
    }

    /** The dialog creates its device list with `_show_device_info` as the command. */
    constructor (hasLoop: bool)
      ensures Valid() && fresh(list)
      ensures list.rows == [] && !list.destroyed
      ensures masterHasLoop == hasLoop && selectedDevice == None && !destroyed
      ensures !connectEnabled && !connectCallbackSet && requests == []
    {
      list := new DeviceList(true);
      masterHasLoop := hasLoop;
      selectedDevice := None;
      destroyed := false;
      infoText := "";
      connectEnabled := false;
      connectCallbackSet := false;
      requests := [];
    }

    /** `_show_device_info`: the device becomes the selection and connecting is enabled. */
    method ShowDeviceInfo(d: DeviceEntry)
      modifies this`selectedDevice, this`infoText, this`connectEnabled
      ensures destroyed ==> selectedDevice == old(selectedDevice) && infoText == old(infoText)
                            && connectEnabled == old(connectEnabled)
      ensures !destroyed ==> selectedDevice == Some(d) && infoText == InfoText(d) && connectEnabled
    {
      if destroyed {
        return;
      }
      infoText := InfoText(d);
      connectEnabled := true;
      selectedDevice := Some(d);
    }

    /** A click on row `row` of the list: the list selects it and forwards its device here. */
    method ClickRow(row: nat)
      requires Valid() && row < |list.rows|
      modifies list`selectedRow, this`selectedDevice, this`infoText, this`connectEnabled
      ensures Valid()
      ensures !list.destroyed ==> list.selectedRow == Some(row)
      ensures list.destroyed ==> list.selectedRow == old(list.selectedRow)
      ensures !list.destroyed && !destroyed ==>
                && selectedDevice == Some(old(list.rows[row]))
                && infoText == InfoText(old(list.rows[row]))
                && connectEnabled
      ensures list.destroyed || destroyed ==>
                && selectedDevice == old(selectedDevice)
                && infoText == old(infoText)
                && connectEnabled == old(connectEnabled)
    {
      var forwarded := list.Select(row);
      if forwarded.Some? {
        ShowDeviceInfo(forwarded.value);
      }
    }

    /**
     * `_on_scan_again`: forgets the selection and disables connecting; a new
     * scan is scheduled only when the owner has an event loop.
     */
    method OnScanAgain()
      modifies this`selectedDevice, this`infoText, this`connectEnabled, this`requests
      ensures destroyed ==> selectedDevice == old(selectedDevice) && requests == old(requests)
      ensures !destroyed ==> selectedDevice == None && infoText == "" && !connectEnabled
      ensures !destroyed ==> requests == old(requests) + (if masterHasLoop then [ScanRequested] else [])
    {
      if destroyed {
        return;
      }
      infoText := "";
      connectEnabled := false;
      selectedDevice := None;
      if masterHasLoop {
        requests := requests + [ScanRequested];
      }
    }

    /** `show_scanning`: empties the device list. */
    method ShowScanning()
      requires Valid()
      modifies list`rows, list`devices, list`selectedRow, this`infoText
      ensures Valid()
      ensures !destroyed && !list.destroyed ==> list.rows == [] && list.selectedRow == None
      ensures !destroyed ==> infoText == "Scanning for devices..."
      ensures destroyed ==> list.rows == old(list.rows) && infoText == old(infoText)
    {
      if destroyed {
        return;
      }
      list.Clear();
      infoText := "Scanning for devices...";
    }

    /** `add_device`: a discovered device is passed on to the list unless the dialog is gone. */
    method AddDevice(name: string, address: string, rssi: int)
      requires Valid()
      modifies list`rows, list`devices
      ensures Valid()
      ensures destroyed ==> list.rows == old(list.rows) && list.devices == old(list.devices)
      ensures !destroyed && !list.destroyed && address !in old(list.devices) ==>
                list.rows == old(list.rows) + [DeviceEntry(name, address, rssi)]
      ensures address in old(list.devices) ==> list.rows == old(list.rows)
    {
      if destroyed {
        return;
      }
      list.Add(name, address, rssi);
    }

    /** `on_connect_clicked`. */
    method OnConnectClicked()
      modifies this`connectCallbackSet
      ensures connectCallbackSet
    {
      connectCallbackSet := true;
    }

    /**
     * `_on_connect`: the selected device is handed to the connect callback
     * when there is a selection, a callback and an event loop; the dialog
     * stays open either way.
     */
    method OnConnect()
      modifies this`requests
      ensures !destroyed && selectedDevice.Some? && connectCallbackSet && masterHasLoop ==>
                requests == old(requests) + [ConnectRequested(selectedDevice.value)]
      ensures !(!destroyed && selectedDevice.Some? && connectCallbackSet && masterHasLoop) ==>
                requests == old(requests)
    {
      if destroyed {
        return;
      }
      if selectedDevice.Some? && connectCallbackSet && masterHasLoop {
        requests := requests + [ConnectRequested(selectedDevice.value)];
      }
    }

    /** `destroy`. */
    method Destroy()
      modifies this`destroyed
      ensures destroyed
    {
      destroyed := true;
    }
  }
}
