/**
 * The IMU presenter (src/presenter/imu_presenter.py): one-shot reads, the
 * notification toggle and the view updates of one IMU characteristic.
 */
module ImuPresenterModel {
  import opened Wrappers
  import opened ByteCodec
  import opened Transport
  import opened BleServiceModel
  import opened ImuModel

  /** The calls the presenter makes on its IMU view. */
  datatype ViewCall =
    | UpdateAccel(ax: int, ay: int, az: int)
    | UpdateGyro(gx: int, gy: int, gz: int)
    | UpdateMagn(mx: int, my: int, mz: int)
    | UpdateDebugText(text: string)
    | ToggleNotify(on: bool)

  /** `_update_view`: the three axis triples, then the raw hex. */
  function ViewUpdate(d: ImuData): seq<ViewCall> {
    [UpdateAccel(d.accel.x, d.accel.y, d.accel.z), UpdateGyro(d.gyro.x, d.gyro.y, d.gyro.z),
     UpdateMagn(d.mag.x, d.mag.y, d.mag.z), UpdateDebugText(RawHex(d.rawData))]
  }

  /**
   * `_notification_handler`: the view update a notification schedules, none
   * for a payload that does not decode; the debug text shown is the payload's
   * own hex rendering.
   */
  function NotificationUpdates(data: seq<byte>): (calls: seq<ViewCall>)
    ensures calls == [] <==> |data| != PayloadLength
    ensures calls != [] ==> |calls| == 4 && calls[3] == UpdateDebugText(HexJoin(data))
    ensures calls != [] ==> calls == ViewUpdate(FromBytes(data).value)
  {
    match FromBytes(data)
    case None => []
    case Some(d) => ViewUpdate(d)
  }

  /** The shown readings are the payload's nine words: decoding and display lose nothing. */
  lemma ShownReadingsRebuildPayload(data: seq<byte>)
    requires |data| == PayloadLength
    ensures var calls := NotificationUpdates(data);
            calls[0].UpdateAccel? && calls[1].UpdateGyro? && calls[2].UpdateMagn? &&
            PackInt16s([calls[0].ax, calls[0].ay, calls[0].az, calls[1].gx, calls[1].gy, calls[1].gz,
                        calls[2].mx, calls[2].my, calls[2].mz]) == data
  {
    var d := FromBytes(data).value;
    DecodeEncode(data);
    assert Readings(d) == [d.accel.x, d.accel.y, d.accel.z, d.gyro.x, d.gyro.y, d.gyro.z, d.mag.x, d.mag.y, d.mag.z];
  }

  /**
   * The state the view's notification toggle shows after `calls`: the value
   * of the last `ToggleNotify` call, off before any.
   */
  function ViewToggle(calls: seq<ViewCall>): (on: bool)
    ensures on ==> exists i :: 0 <= i < |calls| && calls[i] == ToggleNotify(true)
  {
    if calls == [] then false
    else if calls[|calls| - 1].ToggleNotify? then calls[|calls| - 1].on
    else ViewToggle(calls[..|calls| - 1])
  }

  /** Readings shown after the last toggle do not change what the toggle shows. */
  lemma {:induction false} ViewToggleIgnoresReadings(calls: seq<ViewCall>, more: seq<ViewCall>)
    requires forall i :: 0 <= i < |more| ==> !more[i].ToggleNotify?
    ensures ViewToggle(calls + more) == ViewToggle(calls)
  {
    if more == [] {
      assert calls + more == calls;
    } else {
      var init := more[..|more| - 1];
      assert (calls + more)[|calls + more| - 1] == more[|more| - 1];
      assert (calls + more)[..|calls + more| - 1] == calls + init;
      ViewToggleIgnoresReadings(calls, init);
    }
  }

  class ImuPresenter {
    const service: BleService
    const charUuid: Uuid
    var notifying: bool
    var viewCalls: seq<ViewCall>

    /** `notifying` is what the view's toggle was last set to (off at first). */
    predicate Valid()
      reads this
    {
      ViewToggle(viewCalls) == notifying
    }

    constructor (service: BleService, charUuid: Uuid)
      ensures this.service == service && this.charUuid == charUuid
      ensures !notifying && viewCalls == []
      ensures Valid()
    {
      this.service := service;
      this.charUuid := charUuid;
      notifying := false;
      viewCalls := [];
    }

    /** `is_notifying`: the flag, which is what the view's toggle shows. */
    function IsNotifying(): (r: bool)
      reads this
      ensures r <==> notifying
      ensures Valid() ==> r == ViewToggle(viewCalls)
    {
      notifying
    }

    /**
     * `read_data`: `False` without reading when not connected; otherwise
     * `True`, with the view updated, exactly when the reply is an 18-byte
     * payload.
     */
    method ReadData(reply: Option<seq<byte>>) returns (r: bool)
      requires Valid()
      modifies this`viewCalls, service`log
      ensures Valid()
      ensures r <==> service.IsConnected() && reply.Some? && |reply.value| == PayloadLength
      ensures viewCalls == if r then old(viewCalls) + ViewUpdate(FromBytes(reply.value).value) else old(viewCalls)
      ensures service.log == if service.IsConnected() then old(service.log) + [Read(charUuid)] else old(service.log)
    {
      if !service.IsConnected() {
        return false;
      }
      var data := service.ReadCharacteristic(charUuid, reply);
      if data.Some? && data.value != [] {
        var imu := FromBytes(data.value);
        if imu.Some? {
          ViewToggleIgnoresReadings(viewCalls, ViewUpdate(imu.value));
          viewCalls := viewCalls + ViewUpdate(imu.value);
          return true;
        }
      }
      r := false;
    }

    /**
     * `toggle_notifications`: `False` with nothing changed when not
     * connected; otherwise stops or starts notifications and flips
     * `notifying` (telling the view) only when the transport call succeeded,
     * whose result it returns.
     */
    method ToggleNotifications(ok: bool) returns (r: bool)
      requires Valid()
      modifies this`notifying, this`viewCalls, service`log
      ensures Valid()
      ensures r <==> service.IsConnected() && ok
      ensures notifying == if r then !old(notifying) else old(notifying)
      ensures viewCalls == if r then old(viewCalls) + [ToggleNotify(notifying)] else old(viewCalls)
      ensures service.log == if !service.IsConnected() then old(service.log)
                             else if old(notifying) then old(service.log) + [StopNotify(charUuid)]
                             else old(service.log) + [StartNotify(charUuid)]
    {
      if !service.IsConnected() {
        return false;
      }
      if notifying {
        r := service.StopNotify(charUuid, ok);
        if r {
          notifying := false;
          viewCalls := viewCalls + [ToggleNotify(false)];
        }
      } else {
        r := service.StartNotify(charUuid, ok);
        if r {
          notifying := true;
          viewCalls := viewCalls + [ToggleNotify(true)];
        }
      }
    }

    /** `_notification_handler` followed by the update task it schedules. */
    method NotificationHandler(data: seq<byte>)
      requires Valid()
      modifies this`viewCalls
      ensures Valid()
      ensures viewCalls == old(viewCalls) + NotificationUpdates(data)
    {
      var imu := FromBytes(data);
      if imu.Some? {
        ViewToggleIgnoresReadings(viewCalls, ViewUpdate(imu.value));
        viewCalls := viewCalls + ViewUpdate(imu.value);
      }
    }
  }
}
