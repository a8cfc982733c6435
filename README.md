# Sensor glove host: a Dafny model

This project models the host side of an ESP32 sensor glove that talks over
Bluetooth Low Energy, together with the small student/teacher/class tutorial
that ships in the same repository.

- **Characteristic codecs.** Fixed-length little-endian decoders for:
  - IMU vectors: 18 bytes, nine int16 values;
  - timestamps: 8 bytes, uint64 seconds;
  - joystick (5 bytes) and buttons (4 bytes);
  - overall status (4 bytes);
  - battery level and charge state (1 byte each).

  Each decoder accepts exactly its payload length. The IMU, joystick and
  overall-status codecs have inverse encoders with round-trip lemmas in both
  directions, and the timestamp that `current` packs decodes back to its
  value. The buttons and battery payloads are only ever decoded by the
  program, and the model gives them no encoder. The `to_hex_string` of the
  IMU, timestamp, joystick, buttons and overall-status records is one
  function over the stored raw bytes, `ByteCodec.RawHex`; the battery records
  have no hex rendering. The older codec variants and the debug tool's
  payload classifier are modelled alongside.
- **Connection state and guarded transport.** `BLEService` and the ESP32 service built on it:
  - every read, write, notify and stop is guarded by the connection state;
  - the Bluetooth transport is an oracle: each transport outcome is a parameter;
  - the service records the transport calls it makes in a `log`.
- **Presenters.** The IMU notify toggle, the timestamp write-then-read, the
  connection reports, the status indicators, and the two-channel sensor and
  gamepad subsystems. Each keeps, as fields, what it shows and which
  subscriptions it asked for.
- **Device manager.** Checks that the required presenters are present, runs the
  start and cleanup sequences inside `try` blocks, and is a process-wide
  singleton. Each presenter call is a `Step`; which steps raise is a
  parameter, and the manager's behaviour is the trace of steps it attempts.
- **Liveness watchdog.** Lives in the device monitor view and is driven by
  charging notifications. Time is an integer parameter.
- **Config blob.** The IMU1 (bytes 1, 2, 5, 6, 7), IMU2 (bytes 3, 4, 8, 9, 10)
  and sensor-rate (bytes 11-12) sections, read and rewritten by the
  configuration dialogs.
- **Scan-result list and connection dialogs.** Both variants of the dialog.
- **Tutorial.** The list-backed student, teacher and class managers, the class
  entity, and the class presenter's lookup validation.

Shared pieces:
- `bytes.dfy`: little-endian integers, two's complement and hex rendering.
- `list_ops.dfy`: the filter and first-match idioms of the tutorial managers.
- `wrappers.dfy`: `Option`.

## Model

| member | source | states |
|---|---|---|
| ByteCodec.LeUnsignedOfLeBytes | src/model/timestamp.py:27-38 | decoding the `width` little-endian bytes of `n` gives back `n` |
| ByteCodec.LeBytesOfLeUnsigned | src/model/timestamp.py:27-38 | encoding the decoded value of any byte string at its own width gives back the string |
| ByteCodec.LeSigned | src/model/imu.py:40 | a two's-complement little-endian value of k bytes lies in [-2^(8k-1), 2^(8k-1)) |
| ByteCodec.SignedRoundTrip | src/model/imu.py:40 | decoding the two's-complement bytes of an in-range value gives it back |
| ByteCodec.SignedBytesRoundTrip | src/model/imu.py:40 | re-encoding a decoded two's-complement value reproduces the bytes |
| ByteCodec.Int16s | src/model/imu.py:40 | `<Nh` unpacking yields one value in [-32768, 32767] per two bytes |
| ByteCodec.Int16sAt | src/model/imu.py:40-45 | word k of an unpacked payload is the signed value of bytes 2k and 2k+1 |
| ByteCodec.UnpackOfPack | src/model/imu.py:40 | unpacking packed in-range int16 values gives them back |
| ByteCodec.PackOfUnpack | src/model/imu.py:40 | packing the unpacked words reproduces the payload |
| ByteCodec.HexByte | src/model/imu.py:55 | two characters, whose hex-digit values make up the byte |
| ByteCodec.HexJoin | src/model/imu.py:55 | the spaced rendering of n > 0 bytes has length 3n-1 (0 for no bytes) |
| ByteCodec.HexJoinAt | src/model/imu.py:55 | byte i sits at characters 3i and 3i+1 and is followed by a space unless it is last |
| ByteCodec.HexJoinInjective | src/model/imu.py:51-55 | two payloads with the same hex rendering are equal |
| ByteCodec.RawHex | src/model/imu.py:51-55 | `to_hex_string` is empty iff the raw data is missing or empty; otherwise it has length 3n-1 |
| ImuModel.Default | src/model/imu.py:6-31 | the default record has all nine readings 0 and no raw data |
| ImuModel.FromBytes | src/model/imu.py:33-49 | decodes exactly the 18-byte payloads; keeps the payload as raw data; every reading is an int16 |
| ImuModel.Encode | src/model/imu.py:40-45 | the inverse encoding of in-range readings is 18 bytes |
| ImuModel.FieldLayout | src/model/imu.py:40-45 | reading k in the order accel, gyro, mag (x, y, z) is the signed word at bytes 2k and 2k+1 |
| ImuModel.DecodeEncode | src/model/imu.py:40-45 | re-encoding the decoded readings reproduces the 18 input bytes |
| ImuModel.EncodeDecode | src/model/imu.py:33-49 | decoding the encoding of in-range readings gives them back, with the encoding as raw data |
| TimestampModel.FromBytes | src/model/timestamp.py:20-31 | decodes exactly the 8-byte payloads into a uint64 whose 8-byte encoding is the payload |
| TimestampModel.Current | src/model/timestamp.py:33-39 | the current record carries the clock's seconds and 8 raw bytes that decode back to the same record |
| GamepadModel.JoystickFromBytes | src/model/gamepad.py:14-33 | decodes exactly the 5-byte payloads; x and y are int16; the button is byte 4; the raw data is the payload |
| GamepadModel.EncodeJoystick | src/model/gamepad.py:28-29 | the inverse encoding is 5 bytes, ending in the button byte |
| GamepadModel.JoystickRoundTrip | src/model/gamepad.py:23-30 | re-encoding a decoded joystick payload reproduces it |
| GamepadModel.JoystickEncodeDecode | src/model/gamepad.py:14-33 | decoding the encoding of an in-range reading gives it back |
| GamepadModel.NewButtons | src/model/gamepad.py:53-56 | a missing or empty state list becomes four zeros; any other list is kept |
| GamepadModel.ButtonsFromBytes | src/model/gamepad.py:58-74 | decodes exactly the 4-byte payloads; the states are the bytes themselves |
| GamepadModel.ButtonLines | src/model/gamepad.py:86-87 | one debug line per button state |
| GamepadModel.LabelsFollowBytes | src/model/gamepad.py:47-87 | a button's line says "Pressed" iff its byte is non-zero; so does the joystick's button label |
| OverallStatusModel.Default | src/model/overall_status.py:14-19 | all three subsystems default to "not detected", with no raw data |
| OverallStatusModel.FromBytes | src/model/overall_status.py:21-36 | decodes exactly the 4-byte payloads; the fuel gauge and the IMUs are bytes 1, 2 and 3 |
| OverallStatusModel.Encode | src/model/overall_status.py:21-36 | the inverse encoding is 4 bytes starting with the given status code |
| OverallStatusModel.EncodeDecode | src/model/overall_status.py:21-36 | decoding an encoded status gives the three states back |
| OverallStatusModel.StatusCodeIgnored | src/model/overall_status.py:21-36 | two payloads decode to the same states iff they agree on bytes 1-3: byte 0 is never read |
| OverallStatusModel.StateLabel | src/model/overall_status.py:44-57 | the label is "Unknown" iff the value is not one of the four known states |
| OverallStatusModel.StateLabelInjective | src/model/overall_status.py:44-57 | the four known states have distinct labels |
| OverallStatusModel.DebugText | src/model/overall_status.py:44-57 | the debug text starts with the fuel gauge line and ends with the hex of the raw data |
| BatteryModel.LevelFromBytes | src/model/battery.py:9-18 | decodes every non-empty payload; the level is byte 0 |
| BatteryModel.StateFromBytes | src/model/battery.py:36-46 | decodes every non-empty payload; the state is byte 0 |
| BatteryModel.StateText | src/model/battery.py:24-34 | states 0-2 name their entry of the state list; every other value is "Unknown" |
| BatteryModel.FirstByteDecides | src/model/battery.py:9-46 | payloads that agree on byte 0 give the same level and the same state text |
| LegacyEsp32.ProcessTimestamp | src/utils/esp32_ble.py:14-23 | decodes exactly the 8-byte values; the result's 8-byte encoding is the input |
| LegacyEsp32.ProcessImuData | src/utils/esp32_ble.py:25-48 | decodes exactly the 18-byte values, with the spaced hex of the input |
| LegacyEsp32.AgreesWithModels | src/utils/esp32_ble.py:14-48 | the older decoders accept the same payloads as the record decoders and give the same readings, seconds and hex |
| LegacyEsp32.FormatImuData | src/utils/esp32_ble.py:50-65 | the text opens with the accelerometer X line and closes with the magnetometer Z line |
| LegacyEsp32.TimestampPayload | src/utils/esp32_ble.py:74-82 | exactly the values in [0, 2^64) are packed; the packing decodes back to the value |
| LegacyEsp32.WriteTimestamp | src/utils/esp32_ble.py:74-82 | a packet is sent iff connected and the value packs; the result is true iff sent and the write succeeded |
| LegacyEsp32.ReadTimestamp | src/utils/esp32_ble.py:67-72 | a value is returned iff connected and the reply is 8 bytes; it encodes back to the reply |
| LegacyEsp32.ReadImu | src/utils/esp32_ble.py:84-104 | a reading is returned iff connected and the reply is 18 bytes; its hex is the reply's |
| LegacyEsp32.NotifyImu | src/utils/esp32_ble.py:106-122 | the callback fires iff the notification is 18 bytes, with what a read of the same bytes gives |
| LegacyEsp32.ImuSubscriptionCall | src/utils/esp32_ble.py:106-130 | starting or stopping an IMU's notifications asks the transport iff a client is connected, and only about that IMU's own characteristic, never the other IMU's; the result is true iff it was asked and succeeded, so a disconnected stop reports False (the newer generic `stop_notify` reports True) |
| DebugApp.AsciiText | ble_debug_app.py:104-106 | each character is its byte |
| DebugApp.DumpText | ble_debug_app.py:170-179 | printable bytes are kept and the rest become '.' |
| DebugApp.Classify | ble_debug_app.py:98-179 | empty is "no data"; all-printable is ASCII; otherwise the length selects the interpretation; other lengths give a hex dump |
| DebugApp.DispatchByLength | ble_debug_app.py:110-179 | for non-ASCII payloads, each of the lengths 16, 4, 18, 8, 1, 2 and 12 selects its own interpretation, and every other length gives a hex dump |
| DebugApp.ImuAgreesWithModel | ble_debug_app.py:125-135 | the debug tool's IMU reading agrees with the IMU record decoder |
| DebugApp.ClassifyInjective | ble_debug_app.py:98-179 | different payloads are classified differently: the classification loses nothing |
| DebugApp.ParseImuData | ble_debug_app.py:98-179 | "No data" iff the payload is empty; the ASCII and hex-dump renderings |
| DebugApp.RenderNoData | ble_debug_app.py:100-101 | only the empty reading renders as "No data" |
| DebugApp.DebugService.constructor | ble_debug_app.py:12-15 | no client, not connected |
| DebugApp.DebugService.Connect | ble_debug_app.py:17-27 | a client always exists afterwards; connected iff the connect succeeded |
| DebugApp.DebugService.Disconnect | ble_debug_app.py:29-34 | with a client it disconnects and, on success, drops the client; without one, nothing happens |
| DebugApp.DebugService.ReadCharacteristic | ble_debug_app.py:55-63 | guarded by the client only: no client means no transport call |
| DebugApp.DebugService.WriteCharacteristic | ble_debug_app.py:65-74 | true iff a client exists and the write succeeded |
| DebugApp.DebugService.StartNotify | ble_debug_app.py:76-85 | true iff a client exists and subscribing succeeded |
| DebugApp.DebugService.StopNotify | ble_debug_app.py:87-96 | true iff a client exists and unsubscribing succeeded |
| DebugApp.DebugService.IsConnected | ble_debug_app.py:181-183 | the flag alone; while the flag-implies-client invariant that connect and disconnect keep holds, a True answer means a client exists |
| BleServiceModel.FromDiscovered | src/model/ble_service.py:14-20 | the address is kept; a missing or empty name becomes "Unknown Device"; a missing RSSI becomes 0 |
| BleServiceModel.BleService.constructor | src/model/ble_service.py:25-28 | no client, not connected, no device |
| BleServiceModel.BleService.IsConnected | src/model/ble_service.py:66-68 | connected iff a client exists and the flag is set; under the service invariant a connected service has a recorded device (what the flag means is fixed by the Connect and Disconnect contracts) |
| BleServiceModel.BleService.Connect | src/model/ble_service.py:39-50 | the client always exists afterwards; the flag and the device follow the outcome; a failure keeps the old device |
| BleServiceModel.BleService.Disconnect | src/model/ble_service.py:52-64 | true when not connected; a successful disconnect clears the flag and the device and keeps the client |
| BleServiceModel.BleService.ReadCharacteristic | src/model/ble_service.py:70-79 | the reply only when connected; no transport call otherwise |
| BleServiceModel.BleService.WriteCharacteristic | src/model/ble_service.py:81-91 | true iff connected and the write succeeded |
| BleServiceModel.BleService.StartNotify | src/model/ble_service.py:93-103 | true iff connected and subscribing succeeded |
| BleServiceModel.BleService.StopNotify | src/model/ble_service.py:105-115 | true when not connected, without a transport call; else the transport's outcome |
| Esp32ServiceModel.NotificationHandler | src/model/esp32_service.py:63-70 | the callback receives the decoded record iff the payload is 18 bytes and a callback is set |
| Esp32ServiceModel.Esp32Service.constructor | src/model/esp32_service.py:13-16 | not connected, no callbacks |
| Esp32ServiceModel.Esp32Service.ReadImu | src/model/esp32_service.py:18-29 | a record iff connected and the reply decodes; it is the decoder's record |
| Esp32ServiceModel.Esp32Service.ReadImu1 | src/model/esp32_service.py:31-33 | reads the IMU1 characteristic |
| Esp32ServiceModel.Esp32Service.ReadImu2 | src/model/esp32_service.py:35-37 | reads the IMU2 characteristic |
| Esp32ServiceModel.Esp32Service.ReadTimestamp | src/model/esp32_service.py:39-49 | a record iff connected and the reply is 8 bytes |
| Esp32ServiceModel.Esp32Service.WriteTimestamp | src/model/esp32_service.py:51-61 | writes the raw bytes unchanged only when connected |
| Esp32ServiceModel.Esp32Service.StartImuNotify | src/model/esp32_service.py:72-85 | true iff connected and subscribing succeeded |
| Esp32ServiceModel.Esp32Service.StartImu1Notify | src/model/esp32_service.py:87-90 | the callback is stored even when the subscription fails |
| Esp32ServiceModel.Esp32Service.StartImu2Notify | src/model/esp32_service.py:92-95 | the callback is stored even when the subscription fails |
| Esp32ServiceModel.Esp32Service.StopImuNotify | src/model/esp32_service.py:97-119 | false when not connected, else the transport's outcome |
| ImuPresenterModel.NotificationUpdates | src/presenter/imu_presenter.py:48-76 | the view is updated iff the notification is 18 bytes: accel, gyro, mag, then the payload's hex |
| ImuPresenterModel.ShownReadingsRebuildPayload | src/presenter/imu_presenter.py:59-76 | the nine readings shown re-encode to the notified payload |
| ImuPresenterModel.ViewToggleIgnoresReadings | src/presenter/imu_presenter.py:59-76 | the reading updates a read or a notification sends leave the view's notification toggle as it was |
| ImuPresenterModel.ImuPresenter.constructor | src/presenter/imu_presenter.py:7-12 | not notifying, and the view's toggle shows off |
| ImuPresenterModel.ImuPresenter.ReadData | src/presenter/imu_presenter.py:14-25 | the view is updated iff connected and the reply decodes |
| ImuPresenterModel.ImuPresenter.ToggleNotifications | src/presenter/imu_presenter.py:27-46 | the flag flips, and the view hears of it, only when the transport call succeeds |
| ImuPresenterModel.ImuPresenter.NotificationHandler | src/presenter/imu_presenter.py:48-53 | the view receives exactly the notification's updates |
| ImuPresenterModel.ImuPresenter.IsNotifying | src/presenter/imu_presenter.py:78-80 | the flag, which under the invariant kept by read, toggle and notification is the state the view's toggle was last set to (off before any toggle) |
| TimestampPresenterModel.TimestampPresenter.constructor | src/presenter/timestamp_presenter.py:6-9 | nothing displayed |
| TimestampPresenterModel.TimestampPresenter.ReadTimestamp | src/presenter/timestamp_presenter.py:11-22 | displays the decoded record iff connected and the reply is 8 bytes |
| TimestampPresenterModel.TimestampPresenter.WriteCurrentTime | src/presenter/timestamp_presenter.py:24-39 | writes the clock's 8 bytes, and reads back only after a successful write |
| TimestampPresenterModel.WrittenTimeDecodes | src/presenter/timestamp_presenter.py:24-39 | the bytes written decode to the clock value |
| ConnectionPresenterModel.ConnectReport | src/presenter/connection_presenter.py:17-26 | success reports the device and "Connected to" its name; failure reports no device |
| ConnectionPresenterModel.ConnectionPresenter.constructor | src/presenter/connection_presenter.py:6-9 | nothing reported |
| ConnectionPresenterModel.ConnectionPresenter.ConnectToDevice | src/presenter/connection_presenter.py:17-26 | connects through the service and reports the outcome |
| ConnectionPresenterModel.ConnectionPresenter.Disconnect | src/presenter/connection_presenter.py:28-32 | always reports "Disconnected", whatever the service returns: after a failed disconnect the service stays connected with the same device, and a disconnect while not connected makes no transport call |
| ConnectionPresenterModel.ConnectionPresenter.IsConnected | src/presenter/connection_presenter.py:34-36 | the service's connection state |
| ConnectionPresenterModel.ConnectionPresenter.GetConnectedDevice | src/presenter/connection_presenter.py:38-40 | the service's recorded device, present whenever the service is connected; after a failed connect it is the previously recorded one |
| StatusPresenterModel.IndicatorsOf | src/presenter/overall_status_presenter.py:27-41 | each indicator is lit iff its subsystem is running |
| StatusPresenterModel.IndicatorsFromPayload | src/presenter/overall_status_presenter.py:27-41 | the indicators of a payload are bytes 1-3 being 3 |
| StatusPresenterModel.StatusPresenter.constructor | src/presenter/overall_status_presenter.py:6-15 | no status |
| StatusPresenterModel.StatusPresenter.StartNotifications | src/presenter/overall_status_presenter.py:17-20 | subscribes only with a service |
| StatusPresenterModel.StatusPresenter.StopNotifications | src/presenter/overall_status_presenter.py:22-25 | unsubscribes only with a service |
| StatusPresenterModel.StatusPresenter.HandleStatusUpdate | src/presenter/overall_status_presenter.py:27-41 | a status is stored and its indicators are shown; anything else is ignored |
| StatusPresenterModel.StatusPresenter.ClearStatus | src/presenter/overall_status_presenter.py:43-47 | the status is dropped and every indicator is switched off |
| SensorPresenterModel.SensorPresenter.constructor | src/presenter/sensor_presenter.py:6-22 | the controls start disabled |
| SensorPresenterModel.SensorPresenter.StartNotifications | src/presenter/sensor_presenter.py:24-33 | both subscriptions are attempted; true, with the controls enabled, iff both succeed |
| SensorPresenterModel.SensorPresenter.StopNotifications | src/presenter/sensor_presenter.py:35-40 | both stops, then the controls are disabled |
| SensorPresenterModel.SensorPresenter.HandleFlexUpdate | src/presenter/sensor_presenter.py:42-53 | value k goes to slot k+1 and no other slot changes |
| SensorPresenterModel.SensorPresenter.HandleForceUpdate | src/presenter/sensor_presenter.py:55-65 | a force reading is stored and shown |
| SensorPresenterModel.SensorPresenter.ClearValues | src/presenter/sensor_presenter.py:67-77 | both caches are dropped; slots 1-5 and the force show 0.0 |
| GamepadPresenterModel.GamepadPresenter.constructor | src/presenter/gamepad_presenter.py:6-19 | the controls start disabled |
| GamepadPresenterModel.GamepadPresenter.StartNotifications | src/presenter/gamepad_presenter.py:21-30 | both subscriptions are attempted; true, with the controls enabled, iff both succeed |
| GamepadPresenterModel.GamepadPresenter.StopNotifications | src/presenter/gamepad_presenter.py:32-37 | both stops, then the controls are disabled |
| GamepadPresenterModel.GamepadPresenter.HandleJoystickUpdate | src/presenter/gamepad_presenter.py:39-49 | a joystick reading is stored and its x, y shown |
| GamepadPresenterModel.GamepadPresenter.HandleButtonsUpdate | src/presenter/gamepad_presenter.py:51-62 | light i shows whether state i is non-zero; other lights are untouched |
| GamepadPresenterModel.GamepadPresenter.ClearValues | src/presenter/gamepad_presenter.py:64-74 | the caches are dropped, x, y is (0, 0) and the four lights are off |
| GamepadPresenterModel.LightsFollowPayload | src/presenter/gamepad_presenter.py:61-62 | a decoded button lights iff its payload byte is non-zero |
| DeviceManagerModel.FirstMissing | src/model/device_manager.py:24-29 | some name is reported iff some required name is missing |
| DeviceManagerModel.FirstMissingIsFirst | src/model/device_manager.py:27-29 | every required name before the reported one is present |
| DeviceManagerModel.VerifyRequiredPresenters | src/model/device_manager.py:24-29 | reports the first missing of the seven required presenters; none iff all are present |
| DeviceManagerModel.Attempted | src/model/device_manager.py:33-54 | a `try` block attempts a prefix of its steps, and none before the last of them raised |
| DeviceManagerModel.AttemptedStopsAtRaise | src/model/device_manager.py:33-54 | with no raising step the whole block runs; otherwise the last step attempted is the one that raised |
| DeviceManagerModel.RunBlock | src/model/device_manager.py:33-54 | runs a block: the trace attempted, and failure iff some step raises |
| DeviceManagerModel.DeviceManager.constructor | src/model/device_manager.py:11-22 | not initialised |
| DeviceManagerModel.DeviceManager.Initialize | src/model/device_manager.py:11-29 | the first successful initialisation fixes the presenters; a failed one reports the missing name and leaves the manager uninitialised |
| DeviceManagerModel.DeviceManager.Cleanup | src/model/device_manager.py:56-80 | stops in start order, then clears the views; an exception ends it silently |
| DeviceManagerModel.DeviceManager.StartServices | src/model/device_manager.py:31-54 | status, IMU1, IMU2, sensor and gamepad starts, then one timestamp read; true iff nothing raised, else cleanup ran |
| DeviceManagerModel.DeviceManager.Connect | src/model/device_manager.py:82-109 | services start only after a successful connect; a failure or an exception gives false |
| DeviceManagerModel.DeviceManager.Disconnect | src/model/device_manager.py:111-119 | the cleanup always comes before the disconnect |
| DeviceManagerModel.ManagerRegistry.constructor | src/model/device_manager.py:4 | no instance yet |
| DeviceManagerModel.ManagerRegistry.Construct | src/model/device_manager.py:4-22 | every construction returns the first instance; the presenters stay those of the first successful initialisation |
| DeviceMonitorModel.DeviceMonitor.constructor | src/view/device_monitor_view.py:23-35 | not connected, nothing recorded, no check armed |
| DeviceMonitorModel.DeviceMonitor.SetHandlers | src/view/device_monitor_view.py:388-391 | the commands are installed |
| DeviceMonitorModel.DeviceMonitor.ArmCheck | src/view/device_monitor_view.py:51-62 | a fresh timer id per scheduled check |
| DeviceMonitorModel.DeviceMonitor.UpdateCharging | src/view/device_monitor_view.py:45-52 | records the time; arms a check only if none is armed |
| DeviceMonitorModel.DeviceMonitor.CheckTimeout | src/view/device_monitor_view.py:54-63 | while watching, stale iff more than 3 s of silence, and the check re-arms; otherwise nothing; never clears the stale flag |
| DeviceMonitorModel.DetailAsWritten | src/view/device_monitor_view.py:349-352 | the placeholder without a device; with a device, the attribute the row reads, or a raise when the device lacks it |
| DeviceMonitorModel.DetailsAsWritten | src/view/device_monitor_view.py:349-352 | the four detail rows in order, or a raise iff reading one of them raises |
| DeviceMonitorModel.DetailsRaiseForEveryDevice | src/view/device_monitor_view.py:349 | for every `BLEDeviceInfo`, reading the firmware row raises, and so do the details as a whole |
| DeviceMonitorModel.GloveConnectRaises | src/view/device_monitor_view.py:349 | a concrete device whose connect raises |
| DeviceMonitorModel.Detail | src/view/device_monitor_view.py:349-352 | the intended row: the as-written text wherever that succeeds, the placeholder where it raises |
| DeviceMonitorModel.Details | src/view/device_monitor_view.py:349-352 | the four intended rows, row by row |
| DeviceMonitorModel.DetailsIntended | src/view/device_monitor_view.py:344-352 | the intended rows agree with the as-written ones wherever those succeed, and show the placeholder in every row |
| DeviceMonitorModel.DeviceMonitor.ResetStatus | src/view/device_monitor_view.py:316-344 | connected follows the argument; the last time is forgotten, the armed check cancelled and the stale indicator hidden; a connect with a device stores its address and shows its name |
| DeviceMonitorModel.DeviceMonitor.UpdateConnectionStatusAsWritten | src/view/device_monitor_view.py:316-372 | the same resets, then a raise iff connecting with a device, with the detail rows left as they were; otherwise every detail row shows the placeholder |
| DeviceMonitorModel.DeviceMonitor.UpdateConnectionStatus | src/view/device_monitor_view.py:316-372 | the same resets, never a raise, and every detail row shows the placeholder, which is what a connected device's intended rows are |
| DeviceMonitorModel.DeviceMonitor.HandleReconnect | src/view/device_monitor_view.py:65-75 | reconnects only with the command installed and an address known |
| DeviceMonitorModel.DeviceMonitor.HandleDeviceButton | src/view/device_monitor_view.py:200-211 | disconnects when connected, else opens the connection dialog |
| DeviceListModel.DeviceList.constructor | src/view/connection_dialog.py:32-40 | an empty list with nothing selected |
| DeviceListModel.DeviceList.Add | src/view/connection_dialog.py:42-70 | a new address gets the next row and a device entry; a listed address, or a call after destroy, changes nothing; rows and devices stay one-to-one |
| DeviceListModel.DeviceList.Select | src/view/connection_dialog.py:77-88 | the row becomes selected and its device is forwarded; nothing after destroy |
| DeviceListModel.DeviceList.Clear | src/view/connection_dialog.py:90-98 | rows, devices and the selection are emptied, unless destroyed |
| DeviceListModel.DeviceList.Destroy | src/view/connection_dialog.py:100-102 | the list is marked destroyed |
| ConnectionDialogModel.InfoText | src/view/connection_dialog.py:294 | the info line starts with the name and then the address |
| ConnectionDialogModel.ConnectionDialog.constructor | src/view/connection_dialog.py:107-117 | nothing selected, connect disabled, no callbacks |
| ConnectionDialogModel.ConnectionDialog.ShowDeviceInfo | src/view/connection_dialog.py:289-297 | the device becomes the selection and connecting is enabled |
| ConnectionDialogModel.ConnectionDialog.ClickRow | src/view/connection_dialog.py:289-297 | clicking a row selects it and makes its device the dialog's selection |
| ConnectionDialogModel.ConnectionDialog.OnScanAgain | src/view/connection_dialog.py:299-309 | the selection is dropped; a scan is scheduled only when the owner has an event loop |
| ConnectionDialogModel.ConnectionDialog.ShowScanning | src/view/connection_dialog.py:311-316 | the list is emptied |
| ConnectionDialogModel.ConnectionDialog.AddDevice | src/view/connection_dialog.py:318-321 | discovered devices go to the list unless the dialog is gone |
| ConnectionDialogModel.ConnectionDialog.OnConnectClicked | src/view/connection_dialog.py:336-338 | the connect callback is installed |
| ConnectionDialogModel.ConnectionDialog.OnConnect | src/view/connection_dialog.py:340-347 | connects only with a selection, a callback and an event loop; the dialog stays open |
| ConnectionDialogModel.ConnectionDialog.Destroy | src/view/connection_dialog.py:363-365 | the dialog is marked destroyed |
| LegacyConnectionDialogModel.LegacyConnectionDialog.constructor | src/views/connection_dialog.py:103-112 | the first scan is scheduled at once |
| LegacyConnectionDialogModel.LegacyConnectionDialog.ShowDeviceInfo | src/views/connection_dialog.py:239-246 | the device becomes the selection |
| LegacyConnectionDialogModel.LegacyConnectionDialog.ClickRow | src/views/connection_dialog.py:239-246 | clicking a row selects it and makes its device the dialog's selection |
| LegacyConnectionDialogModel.LegacyConnectionDialog.BeginScan | src/views/connection_dialog.py:248-252 | the list is emptied before scanning |
| LegacyConnectionDialogModel.LegacyConnectionDialog.DeviceDetected | src/views/connection_dialog.py:255-261 | only named devices are listed |
| LegacyConnectionDialogModel.LegacyConnectionDialog.OnScanAgain | src/views/connection_dialog.py:274-281 | the selection is dropped and a scan is always scheduled |
| LegacyConnectionDialogModel.LegacyConnectionDialog.OnConnect | src/views/connection_dialog.py:283-289 | connects only with a selection and a callback, and closes the open dialog in every case |
| LegacyConnectionDialogModel.LegacyConnectionDialog.Destroy | src/views/connection_dialog.py:291-293 | the dialog is marked destroyed |
| ImuConfigModel.Offsets | src/view/imu1_view.py:34-38 | five strictly increasing byte offsets per unit |
| ImuConfigModel.RevValues | src/view/imu1_view.py:34-38 | the reverse-table values exist iff every chosen setting is in its table |
| ImuConfigModel.ApplyImu | src/view/imu1_view.py:26-44 | nothing is read iff the blob is missing or empty; a blob is written iff it reaches the unit's last byte and every setting maps to a byte |
| ImuConfigModel.ApplyImuConfig | src/view/imu2_view.py:26-44 | the buffer copied and rewritten in place is the one the apply specifies |
| ImuConfigModel.ApplyOwnsOnlyItsBytes | src/view/imu1_view.py:32-41 | same length; the chosen values at the unit's five bytes; every other byte, byte 0 included, unchanged |
| ImuConfigModel.OffsetsDisjoint | src/view/imu2_view.py:34-38 | the units' byte sets are disjoint and lie within bytes 1-10 |
| ImuConfigModel.ApplyKeepsOtherUnit | src/view/imu2_view.py:34-38 | applying one unit never disturbs the other's bytes |
| ImuConfigModel.Populate | src/view/imu1_view.py:9-24 | the dialog shows, for each setting, the forward-table entry of its byte; blank when nothing is read |
| ImuConfigModel.ApplyThenPopulate | src/view/imu1_view.py:17-38 | when the reverse tables invert the forward ones, reopening after apply shows the choice applied |
| SensorConfigModel.Interval | src/view/sensor_view.py:96 | the uint16 at bytes 11-12; 0 for a blob that ends before byte 11 |
| SensorConfigModel.ShownInterval | src/view/sensor_view.py:88-100 | an interval is shown iff the read gave a non-empty blob |
| SensorConfigModel.ApplyRate | src/view/sensor_view.py:102-116 | nothing is read iff the blob is missing or empty; a blob is written iff also the rate fits 16 bits |
| SensorConfigModel.ApplySensorRate | src/view/sensor_view.py:107-114 | the buffer copied and rewritten is the one the apply specifies |
| SensorConfigModel.RateLength | src/view/sensor_view.py:110-114 | the length is kept iff the blob already holds bytes 11-12 |
| SensorConfigModel.RateOwnsItsBytes | src/view/sensor_view.py:112 | on a full blob, bytes 11-12 hold the rate and no other byte changes |
| SensorConfigModel.RateRoundTrip | src/view/sensor_view.py:96-112 | reopening after applying rate r shows r, for blobs reaching byte 11 |
| SensorConfigModel.ShortBlobLosesRate | src/view/sensor_view.py:96-112 | on a blob shorter than 10 bytes the rate lands where it is never read back |
| SensorConfigModel.RateKeepsImuBytes | src/view/sensor_view.py:112 | applying a rate never disturbs either IMU's bytes |
| SensorConfigModel.ImuApplyKeepsInterval | src/view/imu1_view.py:32-41 | applying either IMU's settings never changes the interval |
| ListOps.Without | src/models/managers/student_manager.py:18 | the kept entries are exactly the entries without the key |
| ListOps.WithoutConcat | src/models/managers/teacher_manager.py:18 | filtering keeps the relative order of the entries |
| ListOps.WithoutNoMatch | src/models/managers/class_manager.py:19 | nothing is dropped when no entry has the key |
| ListOps.WithoutIdempotent | src/models/managers/student_manager.py:18 | removing twice equals removing once |
| ListOps.FirstIndex | src/models/managers/student_manager.py:29-33 | the index of an entry with the key and none before it; none iff no entry has it |
| ListOps.First | src/models/managers/teacher_manager.py:26-30 | an entry with the key, present iff some entry has it |
| ListOps.Find | src/models/managers/class_manager.py:21-25 | the scan returns the first entry with the key |
| ListOps.FirstIndexIs | src/models/managers/student_manager.py:21-27 | a matching index with no match before it is the first match |
| SchoolEntities.SchoolClass.constructor | src/models/entities/class_.py:5-10 | a new class has its name and teacher and no students |
| SchoolEntities.SchoolClass.AddStudent | src/models/entities/class_.py:12-15 | appends any student, duplicates included; anything else raises and changes nothing |
| SchoolEntities.NewClass | src/models/entities/class_.py:5-10 | a class is made iff it is given a teacher |
| StudentManagerModel.Updated | src/models/managers/student_manager.py:23-26 | the id is kept; the name changes only to a non-empty name and the age only to a non-zero age |
| StudentManagerModel.UpdateFirst | src/models/managers/student_manager.py:20-27 | only the first student with the id changes |
| StudentManagerModel.UpdateKeepsIds | src/models/managers/student_manager.py:20-27 | ids never change, and an unknown id changes nothing |
| StudentManagerModel.StudentManager.constructor | src/models/managers/student_manager.py:6-10 | the list starts empty |
| StudentManagerModel.StudentManager.AddStudent | src/models/managers/student_manager.py:12-15 | appends any student, duplicates included; anything else raises and changes nothing |
| StudentManagerModel.StudentManager.RemoveStudent | src/models/managers/student_manager.py:17-18 | drops every student with the id, keeping the order of the others |
| StudentManagerModel.StudentManager.UpdateStudent | src/models/managers/student_manager.py:20-27 | the loop changes the first match only |
| StudentManagerModel.StudentManager.GetStudent | src/models/managers/student_manager.py:29-33 | the first student with the id, or none |
| TeacherManagerModel.SetSubjectFirst | src/models/managers/teacher_manager.py:20-24 | only the first teacher with the name gets the subject |
| TeacherManagerModel.TeacherManager.constructor | src/models/managers/teacher_manager.py:6-10 | the list starts empty |
| TeacherManagerModel.TeacherManager.AddTeacher | src/models/managers/teacher_manager.py:12-15 | appends any teacher, duplicates included; anything else raises and changes nothing |
| TeacherManagerModel.TeacherManager.RemoveTeacher | src/models/managers/teacher_manager.py:17-18 | drops every teacher with the name, keeping the order of the others |
| TeacherManagerModel.TeacherManager.UpdateTeacher | src/models/managers/teacher_manager.py:20-24 | the first match gets the subject; no match, no change |
| TeacherManagerModel.TeacherManager.GetTeacher | src/models/managers/teacher_manager.py:26-30 | the first teacher with the name, or none |
| ClassManagerModel.ClassManager.constructor | src/models/managers/class_manager.py:7-11 | the list starts empty |
| ClassManagerModel.ClassManager.AddClass | src/models/managers/class_manager.py:13-16 | appends any class; anything else raises and changes nothing |
| ClassManagerModel.ClassManager.RemoveClass | src/models/managers/class_manager.py:18-19 | drops every class with the name, keeping the order of the others |
| ClassManagerModel.ClassManager.GetClass | src/models/managers/class_manager.py:21-25 | the first class with the name, or none |
| ClassManagerModel.ClassManager.AssignTeacher | src/models/managers/class_manager.py:27-32 | only the first class with the name gets the teacher; a non-teacher raises first |
| ClassPresenterModel.ClassPresenter.constructor | src/presenters/class_presenter.py:7-11 | works on the shared managers |
| ClassPresenterModel.ClassPresenter.LoadClasses | src/presenters/class_presenter.py:51-56 | shows the current class list |
| ClassPresenterModel.ClassPresenter.AddClass | src/presenters/class_presenter.py:13-23 | an unknown teacher is an error and adds nothing; otherwise exactly one new, empty class with that teacher is appended |
| ClassPresenterModel.ClassPresenter.AssignTeacher | src/presenters/class_presenter.py:25-34 | an unknown teacher is an error and changes no class |
| ClassPresenterModel.ClassPresenter.AddStudentToClass | src/presenters/class_presenter.py:36-49 | the student is checked before the class; on success the student is appended to the first class with the name only |

## Left out

- Bluetooth transport and scanning (`BleakClient`, `BleakScanner`, `scan_devices`, `_start_scanning`): each transport outcome is a parameter. A reply of `None` stands for a call that raised.
- asyncio and Tk scheduling: each `await` is a sequential call. A scheduled scan, connect or watchdog check is an entry in a request or action log. Two scheduled callbacks are instead applied at once; they are listed in the next two lines.
- `ImuPresenterModel.ImuPresenter.NotificationHandler`: the view update that the handler schedules with `create_task` is applied to the view calls at once. Another event landing between the notification and that task is not modelled.
- `LegacyConnectionDialogModel.LegacyConnectionDialog.DeviceDetected`: the list add that the detection callback schedules with `after(0, ...)` happens at once. The model checks the list's destroyed flag when the device is detected, not when the scheduled add runs.
- `StatusPresenterModel.StatusPresenter.ClearStatus`: the `if self.view:` guard is not modelled, because the presenter is always built with a view.
- `DeviceManagerModel.DeviceManager.Initialize`: the presenters are a set of names, so the default `presenters=None` cannot be passed. With it, the program raises `TypeError` rather than reporting a missing presenter.
- Widgets, colours, labels and fonts: only the state the logic reads back is modelled (selection, enabled flags, indicator values, info text).
- The overall-status, flex, force, joystick and buttons subscriptions, and `read_config`/`write_config`: the presenters and views call these on the ESP32 service, but it does not define them. Their outcomes are parameters (`hasService`, `flexOk`, the blob read), and a subscription or write is recorded by name only.
- `IMUPresenter.start_notifications`/`stop_notifications` and the views' `clear_values`: the device manager calls them, but the IMU presenter does not define them. The manager's steps are therefore abstract, and only whether each one raises matters.
- `DeviceManagerModel.DeviceManager.Connect`: the conversion of the device dictionary into a `BLEDeviceInfo` sits before the `try`. A missing key raises `KeyError` out of `connect`; that path is not modelled.
- `TimestampModel.Current`: requires the clock to fit 64 bits. A later clock makes `to_bytes` raise `OverflowError`, which is not modelled.
- `Esp32ServiceModel.Esp32Service.WriteTimestamp`: a record with no raw bytes is taken to make the client write raise, so nothing is written and the result is false.
- `LegacyEsp32.FormatImuData`: states only the first and the last line of the nine-line text.
- `DebugApp.ParseImuData`: the contract states the "No data", ASCII and hex-dump texts. The numeric texts are stated only through `DebugApp.Classify` and `DebugApp.Render`.
- `ImuConfigModel.Populate`: when a lookup fails halfway, the dialog keeps the settings already filled in and gets no callbacks. The model collapses every such case into one `Failed` outcome.
- `OtherConfigDialog.get_rate_value` float parsing, and the float payloads of the flex and force sensors: the rate is an integer parameter, and the sensor values are `real`.
- Students and teachers are values, not shared objects. After `update_student` or `update_teacher`, copies already placed in a class are not updated, whereas in the program those copies are the same object.
- The singletons of the three tutorial managers: one object of each is built and handed to the class presenter. The device manager's singleton is modelled by `ManagerRegistry`.
- The class presenter's error messages (Vietnamese text in the program) are the `SchoolError` values they report.
- `list_students`, `list_teachers` and `list_classes` return the list field itself; they have no contract.
- The scan-result list is identical in both dialog files and is modelled once. Destroying a dialog is not propagated to its list; every path into the list goes through the dialog's own guard.
- `show_scan_complete`, `_on_status_dialog_closed`, `show_connection_status` and the monitor's logging: these are widget text, status-dialog plumbing and file I/O.
- `__str__`, `print_info` and `get_details` of the tutorial entities: printing only.
- The watchdog's timer ids are natural numbers handed out in order; Tk's id strings are not modelled.

## Findings

| source | as written | input that shows it | evidently intended | confidence | as-written member | corrected member |
|---|---|---|---|---|---|---|
| src/view/device_monitor_view.py:349-352 | on connect, the view reads `firmware`, `model`, `manufacturer` and `hardware` from the device. The `BLEDeviceInfo` it receives carries only `address`, `name` and `rssi` (src/model/ble_service.py:8-11) | connect to `{'address': 'AA:BB:CC:DD:EE:FF', 'name': 'Glove', 'rssi': -40}`: `update_connection_status(True, device)` raises `AttributeError` at line 349, after the name row. `DeviceManager.connect` (src/model/device_manager.py:99-109) catches it and returns False, so the services never start | rows the device does not carry show "--" and the status update completes | medium, not executed | DeviceMonitorModel.DeviceMonitor.UpdateConnectionStatusAsWritten | DeviceMonitorModel.DeviceMonitor.UpdateConnectionStatus |
