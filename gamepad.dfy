/**
 * The joystick and buttons characteristics (src/model/gamepad.py).
 * Joystick: 5 bytes, x and y as little-endian int16, then one button byte.
 * Buttons: 4 bytes, one state byte per button.
 */
module GamepadModel {
  import opened Wrappers
  import opened ByteCodec

  const JoystickLength: nat := 5
  const ButtonsLength: nat := 4

  /** `JoystickData`: axis values, button byte and raw payload (all defaults 0 / `None`). */
  datatype JoystickData = JoystickData(x: int, y: int, buttonState: int, rawData: Option<seq<byte>>)

  /** `ButtonsData`: one state per button, as received, and the raw payload. */
  datatype ButtonsData = ButtonsData(states: seq<int>, rawData: Option<seq<byte>>)

  /** `JoystickData.from_bytes`: `None` unless the payload is exactly 5 bytes. */
  function JoystickFromBytes(data: seq<byte>): (r: Option<JoystickData>)
    ensures r.Some? <==> |data| == JoystickLength
    ensures r.Some? ==> -32768 <= r.value.x < 32768 && -32768 <= r.value.y < 32768
    ensures r.Some? ==> r.value.buttonState == data[4] && r.value.rawData == Some(data)
  {
    if |data| != JoystickLength then None
    else Some(JoystickData(LeSigned(data[0..2]), LeSigned(data[2..4]), data[4], Some(data)))
  }

  /** The 5-byte payload of an in-range joystick reading: the inverse of `JoystickFromBytes`. */
  function EncodeJoystick(j: JoystickData): (s: seq<byte>)
    requires -32768 <= j.x < 32768 && -32768 <= j.y < 32768 && 0 <= j.buttonState < 256
    ensures |s| == JoystickLength && s[4] == j.buttonState
  {
    SignedLeBytes(j.x, 2) + SignedLeBytes(j.y, 2) + [j.buttonState]
  }

  lemma JoystickRoundTrip(data: seq<byte>)
    requires |data| == JoystickLength
    ensures JoystickFromBytes(data).Some?
    ensures EncodeJoystick(JoystickFromBytes(data).value) == data
  {
    SignedBytesRoundTrip(data[0..2]);
    SignedBytesRoundTrip(data[2..4]);
    assert data == data[0..2] + data[2..4] + [data[4]];
  }

  lemma JoystickEncodeDecode(j: JoystickData)
    requires -32768 <= j.x < 32768 && -32768 <= j.y < 32768 && 0 <= j.buttonState < 256
    ensures JoystickFromBytes(EncodeJoystick(j)) == Some(j.(rawData := Some(EncodeJoystick(j))))
  {
    var s := EncodeJoystick(j);
    assert s[0..2] == SignedLeBytes(j.x, 2);
    assert s[2..4] == SignedLeBytes(j.y, 2);
    SignedRoundTrip(j.x, 2);
    SignedRoundTrip(j.y, 2);
  }

  /** `ButtonsData(states, raw_data)`: a missing or empty state list becomes four zeros. */
  function NewButtons(states: seq<int>, rawData: Option<seq<byte>>): (b: ButtonsData)
    ensures states != [] ==> b.states == states
    ensures states == [] ==> b.states == [0, 0, 0, 0]
    ensures b.rawData == rawData
  {
    ButtonsData(if states != [] then states else [0, 0, 0, 0], rawData)
  }

  /** `ButtonsData.from_bytes`: `None` unless 4 bytes; the states are the bytes themselves. */
  function ButtonsFromBytes(data: seq<byte>): (r: Option<ButtonsData>)
    ensures r.Some? <==> |data| == ButtonsLength
    ensures r.Some? ==> r.value.states == data && r.value.rawData == Some(data)
  {
    if |data| != ButtonsLength then None
    else Some(NewButtons(data, Some(data)))
  }

  /** The debug-text word for a button value: Python truthiness of the byte. */
  function PressLabel(state: int): string {
    if state != 0 then "Pressed" else "Released"
  }

  /** The per-button lines of `ButtonsData.get_debug_text`, numbered from 1. */
  function ButtonLines(b: ButtonsData): (lines: seq<string>)
    ensures |lines| == |b.states|
  {
    seq(|b.states|, i requires 0 <= i < |b.states| => "Button " + Decimal(i + 1) + ": " + PressLabel(b.states[i]) + "\n")
  }

  /**
   * In the debug texts a decoded button is shown as pressed exactly when its
   * byte is non-zero, and so is the joystick's button byte.
   */
  lemma LabelsFollowBytes(buttons: seq<byte>, joystick: seq<byte>, i: nat)
    requires |buttons| == ButtonsLength && i < ButtonsLength && |joystick| == JoystickLength
    ensures ButtonsFromBytes(buttons).Some? && JoystickFromBytes(joystick).Some?
    ensures ButtonLines(ButtonsFromBytes(buttons).value)[i] == "Button " + Decimal(i + 1) + ": Pressed\n"
            <==> buttons[i] != 0
    ensures PressLabel(JoystickFromBytes(joystick).value.buttonState) == "Pressed" <==> joystick[4] != 0
  {
    var line := ButtonLines(ButtonsFromBytes(buttons).value)[i];
    var prefix := "Button " + Decimal(i + 1) + ": ";
    if buttons[i] == 0 {
      assert line == prefix + "Released\n";
      assert line[|prefix|] == 'R';
      assert (prefix + "Pressed\n")[|prefix|] == 'P';
    }
  }
}
