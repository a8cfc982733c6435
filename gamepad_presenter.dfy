/**
 * The gamepad presenter (src/presenter/gamepad_presenter.py): the joystick
 * and buttons subscriptions, which only together enable the controls, and
 * the joystick position and button indicators shown.
 */
module GamepadPresenterModel {
  import opened Wrappers
  import opened ByteCodec
  import opened Transport
  import opened GamepadModel

  /** The number of button indicators `clear_values` resets. */
  const ButtonCount: nat := 4

  class GamepadPresenter {
    const hasService: bool
    var joystickData: Option<JoystickData>
    var buttonsData: Option<ButtonsData>
    var controlsEnabled: bool
    /** The x, y position the view shows. */
    var position: (int, int)
    /** Whether each numbered button indicator is lit. */
    var buttonLights: map<int, bool>
    var calls: seq<ChannelCall>

    /** Construction disables the controls. */
    constructor (hasService: bool)
      ensures this.hasService == hasService
      ensures !controlsEnabled && joystickData == None && buttonsData == None
      ensures position == (0, 0) && buttonLights == map[] && calls == []
    {
      this.hasService := hasService;
      joystickData := None;
      buttonsData := None;
      controlsEnabled := false;
      position := (0, 0);
      buttonLights := map[];
      calls := [];
    }

    /**
     * `start_notifications`: both subscriptions are attempted; `True`, with
     * the controls enabled, only when both succeed; `False` without a service.
     */
    method StartNotifications(joystickOk: bool, buttonsOk: bool) returns (r: bool)
      modifies this`controlsEnabled, this`calls
      ensures r <==> hasService && joystickOk && buttonsOk
      ensures controlsEnabled == if r then true else old(controlsEnabled)
      ensures calls == if hasService then old(calls) + [Subscribe(JoystickChannel), Subscribe(ButtonsChannel)]
                       else old(calls)
    {
      if !hasService {
        return false;
      }
      calls := calls + [Subscribe(JoystickChannel), Subscribe(ButtonsChannel)];
      if joystickOk && buttonsOk {
        controlsEnabled := true;
        return true;
      }
      r := false;
    }

    /** `stop_notifications`: both unsubscriptions, then the controls are disabled. */
    method StopNotifications()
      modifies this`controlsEnabled, this`calls
      ensures calls == if hasService then old(calls) + [Unsubscribe(JoystickChannel), Unsubscribe(ButtonsChannel)]
                       else old(calls)
      ensures controlsEnabled == if hasService then false else old(controlsEnabled)
    {
      if hasService {
        calls := calls + [Unsubscribe(JoystickChannel), Unsubscribe(ButtonsChannel)];
        controlsEnabled := false;
      }
    }

    /** `_handle_joystick_update`: a joystick record (else ignored) is cached and its x, y shown. */
    method HandleJoystickUpdate(update: Option<JoystickData>)
      modifies this`joystickData, this`position
      ensures joystickData == if update.Some? then update else old(joystickData)
      ensures position == if update.Some? then (update.value.x, update.value.y) else old(position)
    {
      if update.Some? {
        joystickData := update;
        position := (update.value.x, update.value.y);
      }
    }

    /**
     * `_handle_buttons_update`: a buttons record (else ignored) is cached and
     * indicator i is lit exactly when state i is non-zero, for every state;
     * other indicators keep their value.
     */
    method HandleButtonsUpdate(update: Option<ButtonsData>)
      modifies this`buttonsData, this`buttonLights
      ensures buttonsData == if update.Some? then update else old(buttonsData)
      ensures update.None? ==> buttonLights == old(buttonLights)
      ensures update.Some? ==> forall i :: 0 <= i < |update.value.states| ==>
                i in buttonLights && (buttonLights[i] <==> update.value.states[i] != 0)
      ensures update.Some? ==> forall j :: j in buttonLights <==> j in old(buttonLights) || 0 <= j < |update.value.states|
      ensures update.Some? ==> forall j :: j in old(buttonLights) && !(0 <= j < |update.value.states|) ==>
                buttonLights[j] == old(buttonLights)[j]
    {
      if update.None? {
        return;
      }
      buttonsData := update;
      var states := update.value.states;
      var i := 0;
      while i < |states|
        modifies this`buttonLights
        invariant 0 <= i <= |states|
        invariant forall k :: 0 <= k < i ==> k in buttonLights && (buttonLights[k] <==> states[k] != 0)
        invariant forall j :: j in buttonLights <==> j in old(buttonLights) || 0 <= j < i
        invariant forall j :: j in old(buttonLights) && !(0 <= j < i) ==> buttonLights[j] == old(buttonLights)[j]
      {
        buttonLights := buttonLights[i := states[i] != 0];
        i := i + 1;
      }
    }

    /** `clear_values`: forgets both records, centres the joystick and turns buttons 0..3 off. */
    method ClearValues()
      modifies this`joystickData, this`buttonsData, this`position, this`buttonLights
      ensures joystickData == None && buttonsData == None && position == (0, 0)
      ensures forall i :: 0 <= i < ButtonCount ==> i in buttonLights && !buttonLights[i]
      ensures forall j :: j in buttonLights <==> j in old(buttonLights) || 0 <= j < ButtonCount
      ensures forall j :: j in old(buttonLights) && !(0 <= j < ButtonCount) ==> buttonLights[j] == old(buttonLights)[j]
    {
      joystickData := None;
      buttonsData := None;
      position := (0, 0);
      var i := 0;
      while i < ButtonCount
        modifies this`buttonLights
        invariant 0 <= i <= ButtonCount
        invariant forall k :: 0 <= k < i ==> k in buttonLights && !buttonLights[k]
        invariant forall j :: j in buttonLights <==> j in old(buttonLights) || 0 <= j < i
        invariant forall j :: j in old(buttonLights) && !(0 <= j < i) ==> buttonLights[j] == old(buttonLights)[j]
      {
        buttonLights := buttonLights[i := false];
        i := i + 1;
      }
    }
  }

  /**
   * A decoded buttons payload lights exactly the indicators whose byte is
   * non-zero: the four bytes as they arrived decide the four lights.
   */
  lemma LightsFollowPayload(data: seq<byte>, i: nat)
    requires |data| == ButtonsLength && i < ButtonsLength
    ensures ButtonsFromBytes(data).Some?
    ensures ButtonsFromBytes(data).value.states[i] != 0 <==> data[i] != 0
  {
  }
}
