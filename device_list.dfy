/**
 * The scan-result list of the connection dialog (`ScrollableDeviceFrame`,
 * identical in src/view/connection_dialog.py and
 * src/views/connection_dialog.py): one row per discovered address, in
 * discovery order, with at most one selected row.
 */
module DeviceListModel {
  import opened Wrappers

  /** The `device_info` dictionary bound to a row. */
  datatype DeviceEntry = DeviceEntry(name: string, address: string, rssi: int)

  class DeviceList {
    /** The row frames, each with the device it was created for. */
    var rows: seq<DeviceEntry>
    /** `devices`: the listed devices by address. */
    var devices: map<string, DeviceEntry>
    var selectedRow: Option<nat>
    var destroyed: bool
    /** Whether a `command` was given to forward selections to. */
    const hasCommand: bool

    /** Rows and devices describe the same entries, one row per address. */
    predicate Valid()
      reads this
    {
      && |rows| == |devices|
      && (forall i :: 0 <= i < |rows| ==> rows[i].address in devices && devices[rows[i].address] == rows[i])
      && (forall i, j :: 0 <= i < j < |rows| ==> rows[i].address != rows[j].address)
      && (selectedRow.Some? ==> selectedRow.value < |rows|)
    }

    constructor (command: bool)
      ensures Valid()
      ensures rows == [] && devices == map[] && selectedRow == None && !destroyed && hasCommand == command
    {
      rows := [];
      devices := map[];
      selectedRow := None;
      destroyed := false;
      hasCommand := command;
    }

    /**
     * `add_device`: a device whose address is not yet listed gets the next
     * row; a listed address, or any call after destruction, changes nothing.
     */
    method Add(name: string, address: string, rssi: int)
      requires Valid()
      modifies this`rows, this`devices
      ensures Valid()
      ensures destroyed || address in old(devices) ==> rows == old(rows) && devices == old(devices)
      ensures !destroyed && address !in old(devices) ==>
                rows == old(rows) + [DeviceEntry(name, address, rssi)]
                && devices == old(devices)[address := DeviceEntry(name, address, rssi)]
                && |devices| == |old(devices)| + 1
    {
      if destroyed || address in devices {
        return;
      }
      var entry := DeviceEntry(name, address, rssi);
      rows := rows + [entry];
      devices := devices[address := entry];
    }

    /**
     * `_on_select` for the row at index `row`: it becomes the selected row
     * and its device is forwarded to the command, if there is one. After
     * destruction nothing happens.
     */
    method Select(row: nat) returns (forwarded: Option<DeviceEntry>)
      requires Valid() && row < |rows|
      modifies this`selectedRow
      ensures Valid()
      ensures destroyed ==> selectedRow == old(selectedRow) && forwarded == None
      ensures !destroyed ==> selectedRow == Some(row)
      ensures !destroyed && hasCommand ==> forwarded == Some(rows[row])
      ensures !hasCommand ==> forwarded == None
    {
      if destroyed {
        return None;
      }
      selectedRow := Some(row);
      forwarded := if hasCommand then Some(rows[row]) else None;
    }

    /** `clear`: empties the list and drops the selection, unless destroyed. */
    method Clear()
      requires Valid()
      modifies this`rows, this`devices, this`selectedRow
      ensures Valid()
      ensures destroyed ==> rows == old(rows) && devices == old(devices) && selectedRow == old(selectedRow)
      ensures !destroyed ==> rows == [] && devices == map[] && selectedRow == None
    {
      if destroyed {
        return;
      }
      rows := [];
      devices := map[];
      selectedRow := None;
    }

    /** `destroy`. */
    method Destroy()
      modifies this`destroyed
      ensures destroyed
    {
      destroyed := true;
    }
  }
}
