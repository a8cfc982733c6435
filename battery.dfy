/**
 * The battery characteristics (src/model/battery.py): a level byte and a
 * charge-state byte. Only the first byte is read; nothing is range-checked.
 */
module BatteryModel {
  import opened Wrappers
  import opened ByteCodec

  /** `BatteryLevelData`: nominally a percentage, but any byte value is kept. */
  datatype BatteryLevel = BatteryLevel(level: int, rawData: Option<seq<byte>>)

  /** `BatteryStateData`: 0 not charging, 1 charging, 2 fully charged. */
  datatype BatteryState = BatteryState(state: int, rawData: Option<seq<byte>>)

  /** `BatteryStateData.STATES`. */
  const States: seq<string> := ["Not Charging", "Charging", "Fully Charged"]

  /** `BatteryLevelData.from_bytes`: `None` only for an empty payload; the level is byte 0. */
  function LevelFromBytes(data: seq<byte>): (r: Option<BatteryLevel>)
    ensures r.Some? <==> data != []
    ensures r.Some? ==> r.value.level == data[0] && r.value.rawData == Some(data)
  {
    if data == [] then None else Some(BatteryLevel(data[0], Some(data)))
  }

  /** `BatteryStateData.from_bytes`: `None` only for an empty payload; the state is byte 0. */
  function StateFromBytes(data: seq<byte>): (r: Option<BatteryState>)
    ensures r.Some? <==> data != []
    ensures r.Some? ==> r.value.state == data[0] && r.value.rawData == Some(data)
  {
    if data == [] then None else Some(BatteryState(data[0], Some(data)))
  }

  /** `BatteryStateData.state_text`: the state's name, or "Unknown" outside 0..2. */
  function StateText(s: BatteryState): (text: string)
    ensures 0 <= s.state < |States| ==> text == States[s.state]
    ensures text == "Unknown" <==> !(0 <= s.state < |States|)
  {
    if 0 <= s.state < |States| then States[s.state] else "Unknown"
  }

  /**
   * Only byte 0 is read: payloads with the same first byte decode to the same
   * level and state, whatever follows, and levels above 100 are accepted.
   */
  lemma FirstByteDecides(a: seq<byte>, b: seq<byte>)
    requires a != [] && b != [] && a[0] == b[0]
    ensures LevelFromBytes(a).value.level == LevelFromBytes(b).value.level
    ensures StateText(StateFromBytes(a).value) == StateText(StateFromBytes(b).value)
  {
  }
}
