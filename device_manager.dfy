/**
 * The device manager (src/model/device_manager.py): the one object that
 * checks the presenters it is given, starts the glove's subsystems in a fixed
 * order after a connection, and stops and clears them again.
 *
 * What each presenter call does is modelled in its own module; here every
 * call is a `Step`, and which steps raise an exception is a parameter. The
 * manager's behaviour is the trace of steps it attempts.
 */
module DeviceManagerModel {
  import opened Wrappers

  /** The presenter calls the manager makes. */
  datatype Step =
    | StartOverallStatus | StartImu1 | StartImu2 | StartSensor | StartGamepad | ReadTimestamp
    | StopOverallStatus | StopImu1 | StopImu2 | StopSensor | StopGamepad
    | ClearImu1View | ClearImu2View | ClearSensor | ClearGamepad | ClearStatus
    | ConnectDevice | DisconnectDevice

  /** The presenters the manager must be given, in the order they are checked. */
  const Required: seq<string> := ["overall_status", "imu1", "imu2", "timestamp", "sensor", "connection", "gamepad"]

  /** `start_services`: status first, then the IMUs, sensors and gamepad, then one timestamp read. */
  const StartOrder: seq<Step> := [StartOverallStatus, StartImu1, StartImu2, StartSensor, StartGamepad, ReadTimestamp]

  /** `cleanup`: the subsystems stopped in the same order, then the displays cleared. */
  const CleanupOrder: seq<Step> :=
    [StopOverallStatus, StopImu1, StopImu2, StopSensor, StopGamepad,
     ClearImu1View, ClearImu2View, ClearSensor, ClearGamepad, ClearStatus]

  // ---------------------------------------------------------------------
  // Presenter verification

  /** The first name of `names` that is not among `given`. */
  function FirstMissing(names: seq<string>, given: set<string>): (r: Option<string>)
    ensures r.Some? <==> exists i :: 0 <= i < |names| && names[i] !in given
    ensures r.Some? ==> r.value in names && r.value !in given
  {
    if names == [] then None
    else if names[0] !in given then Some(names[0])
    else
      var rest := FirstMissing(names[1..], given);
      assert forall i :: 0 < i < |names| ==> names[i] == names[1..][i - 1];
      rest
  }

  /** Every name before the first missing one was given. */
  lemma {:induction false} FirstMissingIsFirst(names: seq<string>, given: set<string>, i: nat)
    requires FirstMissing(names, given).Some? && i < |names|
    requires names[i] == FirstMissing(names, given).value
    requires forall j :: 0 <= j < i ==> names[j] != names[i]
    ensures forall j :: 0 <= j < i ==> names[j] in given
  {
    if i > 0 && names[0] in given {
      FirstMissingIsFirst(names[1..], given, i - 1);
    }
  }

  /**
   * `_verify_required_presenters`: the name the `KeyError` reports, that is
   * the first required presenter missing from `given`, or `None` when all
   * seven are there.
   */
  method VerifyRequiredPresenters(given: set<string>) returns (missing: Option<string>)
    ensures missing == FirstMissing(Required, given)
    ensures missing.None? <==> forall i :: 0 <= i < |Required| ==> Required[i] in given
  {
    var i := 0;
    while i < |Required|
      invariant 0 <= i <= |Required|
      invariant forall j :: 0 <= j < i ==> Required[j] in given
      invariant FirstMissing(Required, given) == FirstMissing(Required[i..], given)
    {
      if Required[i] !in given {
        return Some(Required[i]);
      }
      assert Required[i..][1..] == Required[i + 1..];
      i := i + 1;
    }
    missing := None;
  }

  // ---------------------------------------------------------------------
  // Running a sequence of steps inside one `try`

  /**
   * The steps a `try` block attempts: each in order, up to and including the
   * first one that raises.
   */
  function Attempted(steps: seq<Step>, raising: set<Step>): (done: seq<Step>)
    ensures |done| <= |steps| && done == steps[..|done|]
    ensures forall i :: 0 <= i < |done| - 1 ==> done[i] !in raising
  {
    if steps == [] then []
    else if steps[0] in raising then [steps[0]]
    else
      var rest := Attempted(steps[1..], raising);
      assert [steps[0]] + rest == steps[..|rest| + 1];
      [steps[0]] + rest
  }

  /** Whether some step of the block raises. */
  predicate Raises(steps: seq<Step>, raising: set<Step>) {
    exists i :: 0 <= i < |steps| && steps[i] in raising
  }

  /**
   * A block in which nothing raises runs to the end; otherwise the last
   * step attempted is one that raised.
   */
  lemma {:induction false} AttemptedStopsAtRaise(steps: seq<Step>, raising: set<Step>)
    ensures !Raises(steps, raising) ==> Attempted(steps, raising) == steps
    ensures Raises(steps, raising) ==>
              Attempted(steps, raising) != [] && Attempted(steps, raising)[|Attempted(steps, raising)| - 1] in raising
  {
    if steps != [] && steps[0] !in raising {
      AttemptedStopsAtRaise(steps[1..], raising);
      if Raises(steps[1..], raising) {
        var i :| 0 <= i < |steps[1..]| && steps[1..][i] in raising;
        assert steps[i + 1] in raising;
        var rest := Attempted(steps[1..], raising);
        assert Attempted(steps, raising) == [steps[0]] + rest;
        assert Attempted(steps, raising)[|Attempted(steps, raising)| - 1] == rest[|rest| - 1];
      }
      if Raises(steps, raising) {
        var i :| 0 <= i < |steps| && steps[i] in raising;
        assert steps[1..][i - 1] in raising;
      }
    }
  }

  /** One `try` block over `steps`: the trace attempted and whether an exception ended it. */
  method RunBlock(steps: seq<Step>, raising: set<Step>) returns (trace: seq<Step>, failed: bool)
    ensures trace == Attempted(steps, raising)
    ensures failed <==> Raises(steps, raising)
  {
    trace := [];
    var i := 0;
    while i < |steps|
      invariant 0 <= i <= |steps|
      invariant trace == steps[..i]
      invariant forall j :: 0 <= j < i ==> steps[j] !in raising
      invariant Attempted(steps, raising) == trace + Attempted(steps[i..], raising)
    {
      assert steps[i..][1..] == steps[i + 1..];
      trace := trace + [steps[i]];
      if steps[i] in raising {
        return trace, true;
      }
      i := i + 1;
    }
    failed := false;
  }

  // ---------------------------------------------------------------------
  // The manager

  class DeviceManager {
    var initialized: bool
    var presenters: set<string>
    /** The presenter calls attempted so far. */
    var trace: seq<Step>

    constructor ()
      ensures !initialized && presenters == {} && trace == []
    {
      initialized := false;
      presenters := {};
      trace := [];
    }

    /**
     * `__init__`: the first initialisation that passes verification fixes
     * the presenters; later ones change nothing. A failing verification
     * reports the missing name and leaves the manager uninitialised (with
     * the presenters it was given), so a later construction tries again.
     */
    method Initialize(given: set<string>) returns (error: Option<string>)
      modifies this`initialized, this`presenters
      ensures old(initialized) ==> error == None && initialized && presenters == old(presenters)
      ensures !old(initialized) ==> error == FirstMissing(Required, given) && presenters == given
                                    && initialized == error.None?
    {
      if initialized {
        return None;
      }
      presenters := given;
      error := VerifyRequiredPresenters(given);
      if error.None? {
        initialized := true;
      }
    }

    /** `cleanup`: stops and clears in order; an exception ends it and is swallowed. */
    method Cleanup(raising: set<Step>)
      modifies this`trace
      ensures trace == old(trace) + Attempted(CleanupOrder, raising)
    {
      var done, _ := RunBlock(CleanupOrder, raising);
      trace := trace + done;
    }

    /**
     * `start_services`: the start steps in order; the presenters' own
     * results do not matter, only an exception, which skips the remaining
     * steps, runs the cleanup and gives `False`.
     */
    method StartServices(raising: set<Step>) returns (r: bool)
      modifies this`trace
      ensures r <==> !Raises(StartOrder, raising)
      ensures trace == old(trace) + Attempted(StartOrder, raising)
                       + (if r then [] else Attempted(CleanupOrder, raising))
    {
      var done, failed := RunBlock(StartOrder, raising);
      trace := trace + done;
      if failed {
        Cleanup(raising);
        return false;
      }
      r := true;
    }

    /**
     * `connect`: asks the connection presenter to connect (`connected` is
     * its result) and starts the services only on success; an exception from
     * the connect step gives `False`.
     */
    method Connect(connected: bool, raising: set<Step>) returns (r: bool)
      modifies this`trace
      ensures var connectOk := ConnectDevice !in raising && connected;
              r <==> connectOk && !Raises(StartOrder, raising)
      ensures ConnectDevice in raising || !connected ==> trace == old(trace) + [ConnectDevice]
      ensures ConnectDevice !in raising && connected ==>
                trace == old(trace) + [ConnectDevice] + Attempted(StartOrder, raising)
                         + (if r then [] else Attempted(CleanupOrder, raising))
    {
      trace := trace + [ConnectDevice];
      if ConnectDevice in raising || !connected {
        return false;
      }
      r := StartServices(raising);
    }

    /**
     * `disconnect`: the cleanup always runs first and swallows its own
     * exceptions, so the disconnect call is always made after it.
     */
    method Disconnect(raising: set<Step>)
      modifies this`trace
      ensures trace == old(trace) + Attempted(CleanupOrder, raising) + [DisconnectDevice]
    {
      Cleanup(raising);
      trace := trace + [DisconnectDevice];
    }
  }

  /**
   * `DeviceManager()`: every construction yields the one shared instance,
   * created by the first.
   */
  class ManagerRegistry {
    var instance: DeviceManager?

    constructor ()
      ensures instance == null
    {
      instance := null;
    }

    method Construct(given: set<string>) returns (m: DeviceManager, error: Option<string>)
      modifies this, instance
      ensures old(instance) != null ==> m == old(instance)
      ensures old(instance) == null ==> fresh(m)
      ensures instance == m
      ensures old(instance) != null && old(instance.initialized) ==>
                error == None && m.initialized && m.presenters == old(instance.presenters)
      ensures !(old(instance) != null && old(instance.initialized)) ==>
                error == FirstMissing(Required, given) && m.presenters == given && m.initialized == error.None?
    {
      if instance == null {
        instance := new DeviceManager();
      }
      m := instance;
      error := m.Initialize(given);
    }
  }
}
