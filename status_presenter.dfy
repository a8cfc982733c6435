/**
 * The overall-status presenter (src/presenter/overall_status_presenter.py):
 * caches the latest status and lights one indicator per sensor that reports
 * RUNNING.
 */
module StatusPresenterModel {
  import opened Wrappers
  import opened ByteCodec
  import opened Transport
  import opened OverallStatusModel

  /** One `update_status(fuelgause, imu1, imu2)` call on the view. */
  datatype Indicators = Indicators(fuelgauge: bool, imu1: bool, imu2: bool)

  /** The indicators of a status: lit exactly for the sensors in state RUNNING. */
  function IndicatorsOf(s: OverallStatus): (ind: Indicators)
    ensures ind.fuelgauge <==> s.fuelgause == Running
    ensures ind.imu1 <==> s.imu1 == Running
    ensures ind.imu2 <==> s.imu2 == Running
  {
    Indicators(s.fuelgause == Running, s.imu1 == Running, s.imu2 == Running)
  }

  /**
   * From the wire: an indicator is lit exactly when its byte (1, 2 or 3) is
   * 3; FAILED, IDLE, NOT_DETECT and unknown values all leave it dark, and the
   * status code in byte 0 plays no part.
   */
  lemma IndicatorsFromPayload(data: seq<byte>)
    requires |data| == PayloadLength
    ensures FromBytes(data).Some?
    ensures IndicatorsOf(FromBytes(data).value) == Indicators(data[1] == 3, data[2] == 3, data[3] == 3)
  {
  }

  class StatusPresenter {
    /** Whether an ESP32 service was supplied (`if self.esp32_service`). */
    const hasService: bool
    var current: Option<OverallStatus>
    var shown: seq<Indicators>
    var calls: seq<ChannelCall>

    constructor (hasService: bool)
      ensures this.hasService == hasService && current == None && shown == [] && calls == []
    {
      this.hasService := hasService;
      current := None;
      shown := [];
      calls := [];
    }

    /** `start_notifications`: subscribes when there is a service; the result is ignored. */
    method StartNotifications()
      modifies this`calls
      ensures calls == if hasService then old(calls) + [Subscribe(OverallStatusChannel)] else old(calls)
    {
      if hasService {
        calls := calls + [Subscribe(OverallStatusChannel)];
      }
    }

    /** `stop_notifications`: unsubscribes when there is a service. */
    method StopNotifications()
      modifies this`calls
      ensures calls == if hasService then old(calls) + [Unsubscribe(OverallStatusChannel)] else old(calls)
    {
      if hasService {
        calls := calls + [Unsubscribe(OverallStatusChannel)];
      }
    }

    /**
     * `_handle_status_update`: `update` is `None` when the notification
     * carried `None` or something other than an `OverallStatus`, and is then
     * ignored; otherwise it replaces the cache and the indicators are shown.
     */
    method HandleStatusUpdate(update: Option<OverallStatus>)
      modifies this`current, this`shown
      ensures current == if update.Some? then update else old(current)
      ensures shown == if update.Some? then old(shown) + [IndicatorsOf(update.value)] else old(shown)
    {
      if update.Some? {
        current := update;
        shown := shown + [IndicatorsOf(update.value)];
      }
    }

    /** `clear_status`: forgets the cached status and turns every indicator off. */
    method ClearStatus()
      modifies this`current, this`shown
      ensures current == None
      ensures shown == old(shown) + [Indicators(false, false, false)]
    {
      current := None;
      shown := shown + [Indicators(false, false, false)];
    }
  }
}
