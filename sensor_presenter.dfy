/**
 * The sensor presenter (src/presenter/sensor_presenter.py): the flex and
 * force subscriptions, which only together enable the sensor controls, and
 * the view slots the readings go to. The readings themselves (float32
 * decoding in src/model/sensor.py) are not part of this model; they arrive
 * as reals.
 */
module SensorPresenterModel {
  import opened Wrappers
  import opened Transport

  /** The number of flex sensor slots `clear_values` resets. */
  const FlexSlots: nat := 5

  class SensorPresenter {
    const hasService: bool
    var flexData: Option<seq<real>>
    var forceData: Option<real>
    /** `set_button_states`: whether the view's controls are enabled. */
    var controlsEnabled: bool
    /** What each numbered flex slot of the view shows. */
    var flexSlots: map<int, real>
    /** What the view's force field shows, once set. */
    var forceShown: Option<real>
    var calls: seq<ChannelCall>

    /** Construction disables the controls. */
    constructor (hasService: bool)
      ensures this.hasService == hasService
      ensures !controlsEnabled && flexData == None && forceData == None
      ensures flexSlots == map[] && forceShown == None && calls == []
    {
      this.hasService := hasService;
      flexData := None;
      forceData := None;
      controlsEnabled := false;
      flexSlots := map[];
      forceShown := None;
      calls := [];
    }

    /**
     * `start_notifications`: both subscriptions are attempted, the second
     * even when the first fails; `True`, with the controls enabled, only when
     * both succeed. Without a service nothing happens and `False` is returned.
     */
    method StartNotifications(flexOk: bool, forceOk: bool) returns (r: bool)
      modifies this`controlsEnabled, this`calls
      ensures r <==> hasService && flexOk && forceOk
      ensures controlsEnabled == if r then true else old(controlsEnabled)
      ensures calls == if hasService then old(calls) + [Subscribe(FlexChannel), Subscribe(ForceChannel)]
                       else old(calls)
    {
      if !hasService {
        return false;
      }
      calls := calls + [Subscribe(FlexChannel)];
      calls := calls + [Subscribe(ForceChannel)];
      if flexOk && forceOk {
        controlsEnabled := true;
        return true;
      }
      r := false;
    }

    /** `stop_notifications`: both unsubscriptions, then the controls are disabled. */
    method StopNotifications()
      modifies this`controlsEnabled, this`calls
      ensures calls == if hasService then old(calls) + [Unsubscribe(FlexChannel), Unsubscribe(ForceChannel)]
                       else old(calls)
      ensures controlsEnabled == if hasService then false else old(controlsEnabled)
    {
      if hasService {
        calls := calls + [Unsubscribe(FlexChannel), Unsubscribe(ForceChannel)];
        controlsEnabled := false;
      }
    }

    /**
     * `_handle_flex_update`: `update` is `None` for `None` or a value of
     * another type, which is ignored. Otherwise reading k goes to slot k+1,
     * for every reading, and no other slot changes.
     */
    method HandleFlexUpdate(update: Option<seq<real>>)
      modifies this`flexData, this`flexSlots
      ensures flexData == if update.Some? then update else old(flexData)
      ensures update.None? ==> flexSlots == old(flexSlots)
      ensures update.Some? ==> forall k :: 0 <= k < |update.value| ==>
                k + 1 in flexSlots && flexSlots[k + 1] == update.value[k]
      ensures update.Some? ==> forall j :: j in flexSlots <==> j in old(flexSlots) || 1 <= j <= |update.value|
      ensures update.Some? ==> forall j :: j in old(flexSlots) && !(1 <= j <= |update.value|) ==>
                flexSlots[j] == old(flexSlots)[j]
    {
      if update.None? {
        return;
      }
      flexData := update;
      var values := update.value;
      var i := 0;
      while i < |values|
        modifies this`flexSlots
        invariant 0 <= i <= |values|
        invariant forall k :: 0 <= k < i ==> k + 1 in flexSlots && flexSlots[k + 1] == values[k]
        invariant forall j :: j in flexSlots <==> j in old(flexSlots) || 1 <= j <= i
        invariant forall j :: j in old(flexSlots) && !(1 <= j <= i) ==> flexSlots[j] == old(flexSlots)[j]
      {
        flexSlots := flexSlots[i + 1 := values[i]];
        i := i + 1;
      }
    }

    /** `_handle_force_update`: as the flex handler, for the single force reading. */
    method HandleForceUpdate(update: Option<real>)
      modifies this`forceData, this`forceShown
      ensures forceData == if update.Some? then update else old(forceData)
      ensures forceShown == if update.Some? then update else old(forceShown)
    {
      if update.Some? {
        forceData := update;
        forceShown := update;
      }
    }

    /** `clear_values`: forgets both readings and shows 0.0 in flex slots 1..5 and the force field. */
    method ClearValues()
      modifies this`flexData, this`forceData, this`flexSlots, this`forceShown
      ensures flexData == None && forceData == None
      ensures forall k :: 1 <= k <= FlexSlots ==> k in flexSlots && flexSlots[k] == 0.0
      ensures forall j :: j in flexSlots <==> j in old(flexSlots) || 1 <= j <= FlexSlots
      ensures forall j :: j in old(flexSlots) && !(1 <= j <= FlexSlots) ==> flexSlots[j] == old(flexSlots)[j]
      ensures forceShown == Some(0.0)
    {
      flexData := None;
      forceData := None;
      var i := 1;
      while i <= FlexSlots
        modifies this`flexSlots
        invariant 1 <= i <= FlexSlots + 1
        invariant forall k :: 1 <= k < i ==> k in flexSlots && flexSlots[k] == 0.0
        invariant forall j :: j in flexSlots <==> j in old(flexSlots) || 1 <= j < i
        invariant forall j :: j in old(flexSlots) && !(1 <= j < i) ==> flexSlots[j] == old(flexSlots)[j]
      {
        flexSlots := flexSlots[i := 0.0];
        i := i + 1;
      }
      forceShown := Some(0.0);
    }
  }
}
