/**
 * The timestamp presenter (src/presenter/timestamp_presenter.py): reads the
 * device clock into the view and writes the host's current time to it,
 * reading it back after a successful write.
 */
module TimestampPresenterModel {
  import opened Wrappers
  import opened ByteCodec
  import opened Transport
  import opened BleServiceModel
  import opened TimestampModel

  class TimestampPresenter {
    const service: BleService
    const charUuid: Uuid
    /** The timestamps the view was asked to display, in order. */
    var displayed: seq<TimestampData>

    constructor (service: BleService, charUuid: Uuid)
      ensures this.service == service && this.charUuid == charUuid && displayed == []
    {
      this.service := service;
      this.charUuid := charUuid;
      displayed := [];
    }

    /**
     * `read_timestamp`: `False` when not connected; otherwise `True`, with
     * the display updated, exactly when the reply is an 8-byte payload.
     */
    method ReadTimestamp(reply: Option<seq<byte>>) returns (r: bool)
      modifies this`displayed, service`log
      ensures r <==> service.IsConnected() && reply.Some? && |reply.value| == PayloadLength
      ensures displayed == if r then old(displayed) + [FromBytes(reply.value).value] else old(displayed)
      ensures service.log == if service.IsConnected() then old(service.log) + [Read(charUuid)] else old(service.log)
    {
      if !service.IsConnected() {
        return false;
      }
      var data := service.ReadCharacteristic(charUuid, reply);
      if data.Some? && data.value != [] {
        var t := FromBytes(data.value);
        if t.Some? {
          displayed := displayed + [t.value];
          return true;
        }
      }
      r := false;
    }

    /**
     * `write_current_time`: `False` without writing when not connected;
     * otherwise writes the 8-byte little-endian encoding of the clock's whole
     * seconds, reads the value back only if the write succeeded, and returns
     * the write's result whatever the read-back gives.
     */
    method WriteCurrentTime(clock: nat, writeOk: bool, readBack: Option<seq<byte>>) returns (r: bool)
      requires clock < Pow256(8)
      modifies this`displayed, service`log
      ensures r <==> service.IsConnected() && writeOk
      ensures service.log == if !service.IsConnected() then old(service.log)
                             else old(service.log) + [Write(charUuid, LeBytes(clock, 8))]
                                  + (if writeOk then [Read(charUuid)] else [])
      ensures displayed == if r && readBack.Some? && |readBack.value| == PayloadLength
                           then old(displayed) + [FromBytes(readBack.value).value]
                           else old(displayed)
    {
      if !service.IsConnected() {
        return false;
      }
      var t := Current(clock);
      r := service.WriteCharacteristic(charUuid, t.rawData.value, writeOk);
      if r {
        var _ := ReadTimestamp(readBack);
      }
    }
  }

  /** The bytes `write_current_time` sends decode back to the clock value it read. */
  lemma WrittenTimeDecodes(clock: nat)
    requires clock < Pow256(8)
    ensures FromBytes(LeBytes(clock, 8)).Some?
    ensures FromBytes(LeBytes(clock, 8)).value.unixTimestamp == clock
  {
    assert Current(clock).rawData.value == LeBytes(clock, 8);
  }
}
