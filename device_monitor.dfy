/**
 * The liveness watchdog of the device monitor view
 * (src/view/device_monitor_view.py): charging notifications record when the
 * glove was last heard from, a periodic check marks the connection stale once
 * more than 3 seconds have passed, and a connection status change resets it.
 *
 * Time is an integer parameter (`time.time()`), and the Tk timer is an id
 * handed out by `after`; only the bookkeeping of the view is modelled, not
 * its widgets.
 */
module DeviceMonitorModel {
  import opened Wrappers
  import opened BleServiceModel

  /** The silence, in seconds, after which the check raises the stale indicator. */
  const Threshold: int := 3

  /** What the view asks of the rest of the application. */
  datatype MonitorAction =
    | ScheduleCheck(id: nat)
    | CancelCheck(id: nat)
    | ConnectRequest(name: string, address: string, rssi: int)
    | DisconnectRequest
    | OpenConnectionDialog

  /** The device-detail rows the connected view fills in after the name. */
  datatype DetailRow = Firmware | ModelNumber | Manufacturer | Hardware

  /** The rows in the order the view fills them in. */
  const DetailRows: seq<DetailRow> := [Firmware, ModelNumber, Manufacturer, Hardware]

  /** Every detail row showing the placeholder. */
  const Placeholders: seq<string> := ["--", "--", "--", "--"]

  /**
   * The attribute a detail row reads from the connected device. A
   * `BLEDeviceInfo` carries an address, a name and an RSSI and nothing else,
   * so it has none of them.
   */
  function Attribute(d: DeviceInfo, row: DetailRow): Option<string> {
    None
  }

  /**
   * A detail row as the view writes it, `device_info.<row> if device_info
   * else "--"`; `None` stands for the `AttributeError` that reading a missing
   * attribute raises.
   */
  function DetailAsWritten(device: Option<DeviceInfo>, row: DetailRow): (r: Option<string>)
    ensures device.None? ==> r == Some("--")
    ensures device.Some? && r.Some? ==> r == Attribute(device.value, row)
  {
    match device
    case None => Some("--")
    case Some(d) => Attribute(d, row)
  }

  /** The four detail texts as written, or `None` when reading one of them raises. */
  function DetailsAsWritten(device: Option<DeviceInfo>): (r: Option<seq<string>>)
    ensures r.None? <==> exists i :: 0 <= i < |DetailRows| && DetailAsWritten(device, DetailRows[i]).None?
    ensures r.Some? ==> |r.value| == |DetailRows|
    ensures r.Some? ==> forall i :: 0 <= i < |DetailRows| ==> DetailAsWritten(device, DetailRows[i]) == Some(r.value[i])
  {
    if exists i :: 0 <= i < |DetailRows| && DetailAsWritten(device, DetailRows[i]).None? then None
    else Some(seq(|DetailRows|, i requires 0 <= i < |DetailRows| => DetailAsWritten(device, DetailRows[i]).value))
  }

  /** Reading the details of any connected device raises, at the firmware row. */
  lemma DetailsRaiseForEveryDevice(d: DeviceInfo)
    ensures DetailAsWritten(Some(d), Firmware).None?
    ensures DetailsAsWritten(Some(d)).None?
  {
    assert DetailRows[0] == Firmware;
  }

  /** A concrete connect that raises: the device the connection dialog hands over for a glove. */
  lemma GloveConnectRaises()
    ensures DetailsAsWritten(Some(DeviceInfo("AA:BB:CC:DD:EE:FF", "Glove", -40))).None?
  {
    DetailsRaiseForEveryDevice(DeviceInfo("AA:BB:CC:DD:EE:FF", "Glove", -40));
  }

  /**
   * The evidently intended detail row: the device's attribute when it has
   * one, the placeholder otherwise.
   */
  function Detail(device: Option<DeviceInfo>, row: DetailRow): (t: string)
    ensures DetailAsWritten(device, row).Some? ==> t == DetailAsWritten(device, row).value
    ensures DetailAsWritten(device, row).None? ==> t == "--"
  {
    match DetailAsWritten(device, row)
    case Some(v) => v
    case None => "--"
  }

  /** The four intended detail texts. */
  function Details(device: Option<DeviceInfo>): (t: seq<string>)
    ensures |t| == |DetailRows|
    ensures forall i :: 0 <= i < |DetailRows| ==> t[i] == Detail(device, DetailRows[i])
  {
    seq(|DetailRows|, i requires 0 <= i < |DetailRows| => Detail(device, DetailRows[i]))
  }

  /**
   * The intended rendering never fails, agrees with the one as written
   * wherever that one succeeds, and shows the placeholder in every row for
   * any device the application builds.
   */
  lemma DetailsIntended(device: Option<DeviceInfo>)
    ensures DetailsAsWritten(device).Some? ==> Details(device) == DetailsAsWritten(device).value
    ensures Details(device) == Placeholders
  {
    var t := Details(device);
    forall i | 0 <= i < |DetailRows|
      ensures t[i] == "--"
    {
      assert t[i] == Detail(device, DetailRows[i]);
    }
  }

  class DeviceMonitor {
    var connected: bool
    /** `last_battery_notification`; 0 counts as never, as Python's truthiness does. */
    var lastNotification: Option<int>
    /** `notification_check_timer`: the id of the armed check, if any. */
    var timer: Option<nat>
    /** The id the next `after` call hands out. */
    var nextTimerId: nat
    /** The red device button and visible reconnect button. */
    var stale: bool
    /** `current_device_address`, kept for reconnecting. */
    var deviceAddress: Option<string>
    /** The text of the "name" field. */
    var shownName: string
    /** The texts of the firmware, model, manufacturer and hardware rows. */
    var shownDetails: seq<string>
    /** Whether `set_handlers` installed the connect and disconnect commands. */
    var handlersSet: bool
    var actions: seq<MonitorAction>

    predicate Valid()
      reads this
    {
      timer.Some? ==> timer.value < nextTimerId
    }

    constructor ()
      ensures Valid()
      ensures !connected && lastNotification == None && timer == None && !stale
      ensures deviceAddress == None && !handlersSet && actions == []
    {
      connected := false;
      lastNotification := None;
      timer := None;
      nextTimerId := 0;
      stale := false;
      deviceAddress := None;
      shownName := "--";
      shownDetails := Placeholders;
      handlersSet := false;
      actions := [];
    }

    /** `set_handlers`. */
    method SetHandlers()
      modifies this`handlersSet
      ensures handlersSet
    {
      handlersSet := true;
    }

    /** `after(3000, check)`: arms a new check and returns its id. */
    method ArmCheck() returns (id: nat)
      requires Valid()
      modifies this`nextTimerId, this`actions
      ensures Valid()
      ensures id == old(nextTimerId) && nextTimerId == id + 1
      ensures actions == old(actions) + [ScheduleCheck(id)]
    {
      id := nextTimerId;
      nextTimerId := nextTimerId + 1;
      actions := actions + [ScheduleCheck(id)];
    }

    /**
     * `update_charging` at time `now`: records the notification and arms the
     * check only if no check is armed.
     */
    method UpdateCharging(now: int)
      requires Valid()
      modifies this`lastNotification, this`timer, this`nextTimerId, this`actions
      ensures Valid()
      ensures lastNotification == Some(now)
      ensures old(timer).Some? ==> timer == old(timer) && nextTimerId == old(nextTimerId) && actions == old(actions)
      ensures old(timer).None? ==> timer == Some(old(nextTimerId)) && actions == old(actions) + [ScheduleCheck(old(nextTimerId))]
    {
      lastNotification := Some(now);
      if timer.None? {
        var id := ArmCheck();
        timer := Some(id);
      }
    }

    /** Whether the check acts: connected, and a (non-zero) notification time is known. */
    predicate Watching()
      reads this
    {
      connected && lastNotification.Some? && lastNotification.value != 0
    }

    /**
     * `_check_notification_timeout` firing at time `now`. While watching, it
     * raises the stale indicator when the silence exceeds the threshold and
     * re-arms itself; otherwise it does nothing, not even re-arm. The
     * indicator is never lowered here.
     */
    method CheckTimeout(now: int)
      requires Valid()
      modifies this`stale, this`timer, this`nextTimerId, this`actions
      ensures Valid()
      ensures old(Watching()) ==> stale == (old(stale) || now - old(lastNotification).value > Threshold)
      ensures old(Watching()) ==> timer == Some(old(nextTimerId)) && actions == old(actions) + [ScheduleCheck(old(nextTimerId))]
      ensures !old(Watching()) ==> stale == old(stale) && timer == old(timer) && actions == old(actions)
      ensures old(stale) ==> stale
    {
      if Watching() {
        if now - lastNotification.value > Threshold {
          stale := true;
        }
        var id := ArmCheck();
        timer := Some(id);
      }
    }

    /**
     * The part of `update_connection_status` up to the name row: both on
     * connect and on disconnect the notification time is forgotten, the armed
     * check cancelled and the stale indicator hidden. A connect with a device
     * stores its address, which a disconnect keeps.
     */
    method ResetStatus(isConnected: bool, device: Option<DeviceInfo>)
      requires Valid()
      modifies this`connected, this`lastNotification, this`timer, this`stale,
               this`deviceAddress, this`shownName, this`actions
      ensures Valid()
      ensures connected == isConnected
      ensures lastNotification == None && timer == None && !stale
      ensures actions == old(actions) + (if old(timer).Some? then [CancelCheck(old(timer).value)] else [])
      ensures deviceAddress == if isConnected && device.Some? then Some(device.value.address) else old(deviceAddress)
      ensures shownName == if isConnected && device.Some? then device.value.name else "--"
    {
      connected := isConnected;
      lastNotification := None;
      if timer.Some? {
        actions := actions + [CancelCheck(timer.value)];
        timer := None;
      }
      stale := false;
      if isConnected {
        if device.Some? {
          deviceAddress := Some(device.value.address);
        }
        shownName := if device.Some? then device.value.name else "--";
      } else {
        shownName := "--";
      }
    }

    /**
     * `update_connection_status` as written: after the resets and the name
     * row, a connect with a device raises `AttributeError` at the firmware
     * row, leaving the detail rows as they were.
     */
    method UpdateConnectionStatusAsWritten(isConnected: bool, device: Option<DeviceInfo>) returns (raised: bool)
      requires Valid()
      modifies this`connected, this`lastNotification, this`timer, this`stale,
               this`deviceAddress, this`shownName, this`shownDetails, this`actions
      ensures Valid()
      ensures raised <==> isConnected && device.Some?
      ensures connected == isConnected
      ensures lastNotification == None && timer == None && !stale
      ensures actions == old(actions) + (if old(timer).Some? then [CancelCheck(old(timer).value)] else [])
      ensures deviceAddress == if isConnected && device.Some? then Some(device.value.address) else old(deviceAddress)
      ensures shownName == if isConnected && device.Some? then device.value.name else "--"
      ensures raised ==> shownDetails == old(shownDetails)
      ensures !raised ==> shownDetails == Placeholders
    {
      ResetStatus(isConnected, device);
      if !isConnected {
        shownDetails := Placeholders;
        return false;
      }
      match DetailsAsWritten(device)
      case None =>
        raised := true;
      case Some(texts) =>
        if device.Some? {
          DetailsRaiseForEveryDevice(device.value);
        }
        assert forall i :: 0 <= i < |DetailRows| ==> DetailAsWritten(None, DetailRows[i]) == Some(texts[i]);
        shownDetails := texts;
        raised := false;
    }

    /**
     * `update_connection_status` as evidently intended: the same resets, and
     * every detail row the device does not carry shows the placeholder, so
     * the update always completes.
     */
    method UpdateConnectionStatus(isConnected: bool, device: Option<DeviceInfo>)
      requires Valid()
      modifies this`connected, this`lastNotification, this`timer, this`stale,
               this`deviceAddress, this`shownName, this`shownDetails, this`actions
      ensures Valid()
      ensures connected == isConnected
      ensures lastNotification == None && timer == None && !stale
      ensures actions == old(actions) + (if old(timer).Some? then [CancelCheck(old(timer).value)] else [])
      ensures deviceAddress == if isConnected && device.Some? then Some(device.value.address) else old(deviceAddress)
      ensures shownName == if isConnected && device.Some? then device.value.name else "--"
      ensures isConnected ==> shownDetails == Details(device)
      ensures shownDetails == Placeholders
    {
      ResetStatus(isConnected, device);
      if isConnected {
        DetailsIntended(device);
        shownDetails := Details(device);
      } else {
        shownDetails := Placeholders;
      }
    }

    /**
     * `_handle_reconnect`: reuses the connect command with the remembered
     * address, the shown name and an RSSI of 0; nothing happens without the
     * command or without a (non-empty) address.
     */
    method HandleReconnect()
      modifies this`actions
      ensures handlersSet && deviceAddress.Some? && deviceAddress.value != "" ==>
                actions == old(actions) + [ConnectRequest(shownName, deviceAddress.value, 0)]
      ensures !(handlersSet && deviceAddress.Some? && deviceAddress.value != "") ==> actions == old(actions)
    {
      if handlersSet && deviceAddress.Some? && deviceAddress.value != "" {
        actions := actions + [ConnectRequest(shownName, deviceAddress.value, 0)];
      }
    }

    /**
     * `_handle_device_button`: when connected it asks to disconnect (if the
     * command is set), otherwise it opens the connection dialog.
     */
    method HandleDeviceButton()
      modifies this`actions
      ensures connected && handlersSet ==> actions == old(actions) + [DisconnectRequest]
      ensures connected && !handlersSet ==> actions == old(actions)
      ensures !connected ==> actions == old(actions) + [OpenConnectionDialog]
    {
      if connected {
        if handlersSet {
          actions := actions + [DisconnectRequest];
        }
      } else {
        actions := actions + [OpenConnectionDialog];
      }
    }
  }
}
